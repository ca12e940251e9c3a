/** The command-line splitter of shlex.go: its reader loop, a one-pass reference
    splitter, and what splitting means for quoted, plain and concatenated text. */
module Shlex {
  import opened Basics

  /** The characters for which Go's unicode.IsSpace answers true. */
  predicate IsSpace(c: char) {
    var n := c as int;
    || 0x09 <= n <= 0x0D || n == 0x20 || n == 0x85 || n == 0xA0 || n == 0x1680
    || 0x2000 <= n <= 0x200A || n == 0x2028 || n == 0x2029 || n == 0x202F || n == 0x205F || n == 0x3000
  }

  predicate IsQuote(c: char) {
    c == '\'' || c == '\"'
  }

  predicate IsEscape(c: char) {
    c == '\\'
  }

  // ---------------------------------------------------------------- reference splitter

  /** Where the scan stands. DoubleEscape is "after a backslash inside double quotes". */
  datatype Mode = Blank | Word | Single | Double | Escape | DoubleEscape

  /** True when `c` ends the current (possibly empty) token. */
  predicate Stops(m: Mode, c: char) {
    (m.Blank? || m.Word?) && IsSpace(c)
  }

  function Next(m: Mode, c: char): Mode {
    match m
    case Blank | Word =>
      if IsSpace(c) then Blank
      else if c == '\'' then Single
      else if c == '\"' then Double
      else if c == '\\' then Escape
      else Word
    case Single => if c == '\'' then Word else Single
    case Double => if c == '\"' then Word else if c == '\\' then DoubleEscape else Double
    case Escape => Word
    case DoubleEscape => Double
  }

  /** What reading `c` in mode `m` adds to the token. */
  function Out(m: Mode, c: char): string {
    match m
    case Blank | Word => if IsSpace(c) || IsQuote(c) || IsEscape(c) then "" else [c]
    case Single => if c == '\'' then "" else [c]
    case Double => if c == '\"' || c == '\\' then "" else [c]
    case Escape => [c]
    case DoubleEscape => if c == '\\' || c == '\"' then [c] else ['\\', c]
  }

  /** Empty tokens are never reported. */
  function Emit(token: string): seq<string> {
    if token == "" then [] else [token]
  }

  function SplitFrom(s: string, m: Mode, token: string): seq<string> {
    if s == "" then Emit(token)
    else if Stops(m, s[0]) then Emit(token) + SplitFrom(s[1..], Blank, "")
    else SplitFrom(s[1..], Next(m, s[0]), token + Out(m, s[0]))
  }

  /** The one-pass splitter. */
  function Split(s: string): seq<string> {
    SplitFrom(s, Blank, "")
  }

  // ---------------------------------------------------------------- the reader loop

  datatype Scanned = Scanned(token: string, rest: string, eof: bool)

  /** One token: everything up to the first stopping character, or up to the end. */
  function Scan(s: string, m: Mode, token: string): Scanned {
    if s == "" then Scanned(token, "", true)
    else if Stops(m, s[0]) then Scanned(token, s[1..], false)
    else Scan(s[1..], Next(m, s[0]), token + Out(m, s[0]))
  }

  lemma {:induction false} SplitByTokens(s: string, m: Mode, token: string)
    ensures var t := Scan(s, m, token);
            SplitFrom(s, m, token) == Emit(t.token) + (if t.eof then [] else Split(t.rest))
    ensures !Scan(s, m, token).eof ==> |Scan(s, m, token).rest| < |s|
    decreases |s|
  {
    if s == "" || Stops(m, s[0]) {
    } else {
      SplitByTokens(s[1..], Next(m, s[0]), token + Out(m, s[0]));
    }
  }

  class Reader {
    const text: string
    var pos: nat

    ghost predicate Valid()
      reads this
    {
      pos <= |text|
    }

    ghost function Rest(): string
      reads this
      requires Valid()
    {
      text[pos..]
    }

    constructor (s: string)
      ensures Valid() && Rest() == s && text == s
    {
      text := s;
      pos := 0;
    }

    /** None is io.EOF. */
    method ReadRune() returns (next: Option<char>)
      requires Valid()
      modifies this
      ensures Valid()
      ensures old(Rest()) == "" ==> next.None? && Rest() == ""
      ensures old(Rest()) != "" ==> next == Some(old(Rest())[0]) && Rest() == old(Rest())[1..]
    {
      if pos == |text| { return None; }
      next := Some(text[pos]);
      pos := pos + 1;
    }
  }

  /** The mode that the loop's two state characters stand for. */
  function ModeOf(state: char, escapedState: char): Mode {
    if IsSpace(state) then Blank
    else if state == '\'' then Single
    else if state == '\"' then Double
    else if state == '\\' then (if IsQuote(escapedState) then DoubleEscape else Escape)
    else Word
  }

  predicate LoopStates(state: char, escapedState: char) {
    && state in {' ', 'a', '\'', '\"', '\\'}
    && escapedState in {' ', 'a', '\"'}
    && (state == '\\' ==> escapedState != ' ')
  }

  method ReadToken(r: Reader) returns (token: string, eof: bool)
    requires r.Valid()
    modifies r
    ensures r.Valid()
    ensures Scanned(token, r.Rest(), eof) == Scan(old(r.Rest()), Blank, "")
  {
    token, eof := "", false;
    var quoted, state, escapedState := false, ' ', ' ';
    while true
      invariant r.Valid() && LoopStates(state, escapedState)
      // the word state is only entered with something to report
      invariant ModeOf(state, escapedState).Word? ==> token != "" || quoted
      invariant Scan(r.Rest(), ModeOf(state, escapedState), token) == Scan(old(r.Rest()), Blank, "")
      decreases |r.Rest()|
    {
      var got := r.ReadRune();
      if got.None? { return token, true; }
      var next := got.value;
      ghost var m, before := ModeOf(state, escapedState), token;
      if IsSpace(state) {
        if IsSpace(next) { break; }
        else if IsEscape(next) { escapedState := 'a'; state := next; }
        else if IsQuote(next) { state := next; }
        else { token := token + [next]; state := 'a'; }
      } else if IsQuote(state) {
        quoted := true;
        if next == state { state := 'a'; }
        else if IsEscape(next) && state == '\"' { escapedState := state; state := next; }
        else { token := token + [next]; }
      } else if IsEscape(state) {
        if IsQuote(escapedState) && next != state && next != escapedState {
          token := token + [state];
        }
        token := token + [next];
        state := escapedState;
      } else {
        if IsSpace(next) {
          if token != "" || quoted { break; }
        }
        else if IsQuote(next) { state := next; }
        else if IsEscape(next) { escapedState := 'a'; state := next; }
        else { token := token + [next]; }
      }
      assert token == before + Out(m, next);
    }
  }

  lemma Regroup<T>(a: seq<T>, b: seq<T>, c: seq<T>)
    ensures a + (b + c) == a + b + c
  {
  }

  lemma AppendEmit(ws: seq<string>, token: string)
    ensures ws + Emit(token) == if token != "" then ws + [token] else ws
  {
  }

  lemma TakeToken(before: string, token: string, rest: string, eof: bool) returns (after: seq<string>)
    requires Scanned(token, rest, eof) == Scan(before, Blank, "")
    ensures Split(before) == Emit(token) + after
    ensures if eof then after == [] else after == Split(rest)
    ensures !eof ==> |rest| < |before|
  {
    SplitByTokens(before, Blank, "");
    after := if eof then [] else Split(rest);
  }

  /** The whole splitter: it ends on every input, never with an error. */
  method ShlexSplit(s: string) returns (result: seq<string>)
    ensures result == Split(s)
  {
    var r := new Reader(s);
    result := [];
    ghost var left, todo := s, Split(s);
    while true
      invariant r.Valid() && fresh(r) && r.Rest() == left
      invariant todo == Split(left)
      invariant result + todo == Split(s)
      decreases |left|
    {
      var token, eof := ReadToken(r);
      ghost var after := TakeToken(left, token, r.Rest(), eof);
      Regroup(result, Emit(token), after);
      AppendEmit(result, token);
      ghost var grown := result + Emit(token);
      assert grown + after == Split(s);
      left, todo := r.Rest(), after;
      if token != "" { result := result + [token]; }
      assert result == grown;
      if eof { break; }
    }
  }

  // ---------------------------------------------------------------- quoting

  datatype Style = SingleStyle | DoubleStyle | EscapedStyle | BareStyle

  /** An inner quote is written as: close, backslash-quote, reopen. */
  function SingleChar(c: char): string {
    if c == '\'' then ['\'', '\\', '\'', '\''] else [c]
  }

  function DoubleChar(c: char): string {
    if c == '\"' || c == '\\' then ['\\', c] else [c]
  }

  function SingleBody(w: string): string {
    if w == "" then "" else SingleChar(w[0]) + SingleBody(w[1..])
  }

  function DoubleBody(w: string): string {
    if w == "" then "" else DoubleChar(w[0]) + DoubleBody(w[1..])
  }

  /** Every character after a backslash of its own. */
  function EscapedBody(w: string): string {
    if w == "" then "" else ['\\', w[0]] + EscapedBody(w[1..])
  }

  /** A stretch of a word, written in one style. */
  datatype Piece = Piece(text: string, style: Style)

  predicate Ordinary(c: char) {
    !IsSpace(c) && !IsQuote(c) && !IsEscape(c)
  }

  /** Only ordinary characters can be written bare. */
  predicate Writable(p: Piece) {
    p.style.BareStyle? ==> forall i :: 0 <= i < |p.text| ==> Ordinary(p.text[i])
  }

  function Quote(p: Piece): string {
    match p.style
    case SingleStyle => "'" + SingleBody(p.text) + "'"
    case DoubleStyle => "\"" + DoubleBody(p.text) + "\""
    case EscapedStyle => EscapedBody(p.text)
    case BareStyle => p.text
  }

  function QuoteAll(ps: seq<Piece>): string {
    if ps == [] then "" else Quote(ps[0]) + QuoteAll(ps[1..])
  }

  function WordOf(ps: seq<Piece>): string {
    if ps == [] then "" else ps[0].text + WordOf(ps[1..])
  }

  /** A word, written in pieces side by side, and the white space that follows it. */
  datatype Item = Item(pieces: seq<Piece>, gap: string)

  predicate AllSpace(s: string) {
    forall i :: 0 <= i < |s| ==> IsSpace(s[i])
  }

  predicate AllWritable(ps: seq<Piece>) {
    forall i :: 0 <= i < |ps| ==> Writable(ps[i])
  }

  /** White space must separate the words; after the last one it is optional. */
  predicate Separated(items: seq<Item>) {
    forall i :: 0 <= i < |items| ==>
      AllWritable(items[i].pieces) && AllSpace(items[i].gap) && (i < |items| - 1 ==> items[i].gap != "")
  }

  function Layout(items: seq<Item>): string {
    if items == [] then "" else QuoteAll(items[0].pieces) + items[0].gap + Layout(items[1..])
  }

  function Words(items: seq<Item>): seq<string> {
    if items == [] then [] else [WordOf(items[0].pieces)] + Words(items[1..])
  }

  function NonEmpty(ws: seq<string>): seq<string> {
    if ws == [] then [] else Emit(ws[0]) + NonEmpty(ws[1..])
  }

  lemma {:induction false} NonEmptyIsShorter(ws: seq<string>)
    ensures |NonEmpty(ws)| <= |ws|
    ensures NonEmpty(ws) == ws <==> "" !in ws
    decreases |ws|
  {
    if ws == [] {
    } else {
      NonEmptyIsShorter(ws[1..]);
      assert ws == [ws[0]] + ws[1..];
    }
  }

  /** One step of the reference splitter. */
  lemma Cons(c: char, rest: string, m: Mode, token: string)
    ensures SplitFrom([c] + rest, m, token)
         == if Stops(m, c) then Emit(token) + SplitFrom(rest, Blank, "")
            else SplitFrom(rest, Next(m, c), token + Out(m, c))
  {
    assert ([c] + rest)[1..] == rest;
  }

  /** A character that changes the mode without being written. */
  lemma Silent(c: char, rest: string, m: Mode, n: Mode, token: string)
    requires !Stops(m, c) && Next(m, c) == n && Out(m, c) == ""
    ensures SplitFrom([c] + rest, m, token) == SplitFrom(rest, n, token)
  {
    Cons(c, rest, m, token);
    assert token + "" == token;
  }

  lemma ScanSingleChar(c: char, rest: string, token: string)
    ensures SplitFrom(SingleChar(c) + rest, Single, token) == SplitFrom(rest, Single, token + [c])
  {
    if c == '\'' {
      var s1 := ['\''] + rest;
      var s2 := ['\''] + s1;
      var s3 := ['\\'] + s2;
      assert SingleChar(c) + rest == ['\''] + s3;
      Silent('\'', s3, Single, Word, token);
      Silent('\\', s2, Word, Escape, token);
      Cons('\'', s1, Escape, token);
      Silent('\'', rest, Word, Single, token + [c]);
    } else {
      Cons(c, rest, Single, token);
    }
  }

  lemma ScanDoubleChar(c: char, rest: string, token: string)
    ensures SplitFrom(DoubleChar(c) + rest, Double, token) == SplitFrom(rest, Double, token + [c])
  {
    if c == '\"' || c == '\\' {
      assert DoubleChar(c) + rest == ['\\'] + ([c] + rest);
      Silent('\\', [c] + rest, Double, DoubleEscape, token);
      Cons(c, rest, DoubleEscape, token);
    } else {
      Cons(c, rest, Double, token);
    }
  }

  lemma {:induction false} ScanSingleBody(w: string, rest: string, token: string)
    ensures SplitFrom(SingleBody(w) + "'" + rest, Single, token) == SplitFrom(rest, Word, token + w)
    decreases |w|
  {
    if w == "" {
      assert SingleBody(w) + "'" + rest == ['\''] + rest && token + w == token;
      Silent('\'', rest, Single, Word, token);
    } else {
      var tail := SingleBody(w[1..]) + "'" + rest;
      assert SingleBody(w) + "'" + rest == SingleChar(w[0]) + tail;
      ScanSingleChar(w[0], tail, token);
      ScanSingleBody(w[1..], rest, token + [w[0]]);
      assert token + [w[0]] + w[1..] == token + w;
    }
  }

  lemma {:induction false} ScanDoubleBody(w: string, rest: string, token: string)
    ensures SplitFrom(DoubleBody(w) + "\"" + rest, Double, token) == SplitFrom(rest, Word, token + w)
    decreases |w|
  {
    if w == "" {
      assert DoubleBody(w) + "\"" + rest == ['\"'] + rest && token + w == token;
      Silent('\"', rest, Double, Word, token);
    } else {
      var tail := DoubleBody(w[1..]) + "\"" + rest;
      assert DoubleBody(w) + "\"" + rest == DoubleChar(w[0]) + tail;
      ScanDoubleChar(w[0], tail, token);
      ScanDoubleBody(w[1..], rest, token + [w[0]]);
      assert token + [w[0]] + w[1..] == token + w;
    }
  }

  lemma ScanEscapedChar(c: char, rest: string, token: string)
    ensures SplitFrom(['\\', c] + rest, Word, token) == SplitFrom(rest, Word, token + [c])
  {
    assert ['\\', c] + rest == ['\\'] + ([c] + rest);
    Silent('\\', [c] + rest, Word, Escape, token);
    Cons(c, rest, Escape, token);
  }

  lemma {:induction false} ScanEscapedBody(w: string, rest: string, token: string)
    ensures SplitFrom(EscapedBody(w) + rest, Word, token) == SplitFrom(rest, Word, token + w)
    decreases |w|
  {
    if w == "" {
      assert EscapedBody(w) + rest == rest && token + w == token;
    } else {
      var tail := EscapedBody(w[1..]) + rest;
      Regroup(['\\', w[0]], EscapedBody(w[1..]), rest);
      ScanEscapedChar(w[0], tail, token);
      ScanEscapedBody(w[1..], rest, token + [w[0]]);
      assert token + [w[0]] + w[1..] == token + w;
    }
  }

  lemma {:induction false} ScanBare(w: string, rest: string, token: string)
    requires forall i :: 0 <= i < |w| ==> Ordinary(w[i])
    ensures SplitFrom(w + rest, Word, token) == SplitFrom(rest, Word, token + w)
    decreases |w|
  {
    if w == "" {
      assert w + rest == rest && token + w == token;
    } else {
      assert w + rest == [w[0]] + (w[1..] + rest);
      Cons(w[0], w[1..] + rest, Word, token);
      ScanBare(w[1..], rest, token + [w[0]]);
      assert token + [w[0]] + w[1..] == token + w;
    }
  }

  lemma ScanPiece(p: Piece, rest: string, token: string)
    requires Writable(p)
    ensures SplitFrom(Quote(p) + rest, Word, token) == SplitFrom(rest, Word, token + p.text)
  {
    match p.style
    case SingleStyle =>
      var inner := SingleBody(p.text) + "'" + rest;
      assert Quote(p) + rest == ['\''] + inner;
      Silent('\'', inner, Word, Single, token);
      ScanSingleBody(p.text, rest, token);
    case DoubleStyle =>
      var inner := DoubleBody(p.text) + "\"" + rest;
      assert Quote(p) + rest == ['\"'] + inner;
      Silent('\"', inner, Word, Double, token);
      ScanDoubleBody(p.text, rest, token);
    case EscapedStyle => ScanEscapedBody(p.text, rest, token);
    case BareStyle => ScanBare(p.text, rest, token);
  }

  lemma {:induction false} ScanPieces(ps: seq<Piece>, rest: string, token: string)
    requires AllWritable(ps)
    ensures SplitFrom(QuoteAll(ps) + rest, Word, token) == SplitFrom(rest, Word, token + WordOf(ps))
    decreases |ps|
  {
    if ps == [] {
      assert QuoteAll(ps) + rest == rest && token + WordOf(ps) == token;
    } else {
      assert QuoteAll(ps) + rest == Quote(ps[0]) + (QuoteAll(ps[1..]) + rest);
      ScanPiece(ps[0], QuoteAll(ps[1..]) + rest, token);
      ScanPieces(ps[1..], rest, token + ps[0].text);
      Regroup(token, ps[0].text, WordOf(ps[1..]));
    }
  }

  /** A scan that has not met anything goes on like one inside a word. */
  lemma BlankScansLikeWord(s: string, token: string)
    ensures SplitFrom(s, Blank, token) == SplitFrom(s, Word, token)
  {
  }

  lemma {:induction false} SkipSpace(sp: string, rest: string)
    requires AllSpace(sp)
    ensures Split(sp + rest) == Split(rest)
    decreases |sp|
  {
    if sp == "" {
      assert sp + rest == rest;
    } else {
      assert (sp + rest)[1..] == sp[1..] + rest;
      SkipSpace(sp[1..], rest);
    }
  }

  lemma CloseWord(w: string, gap: string, rest: string)
    requires AllSpace(gap) && (gap == "" ==> rest == "")
    ensures SplitFrom(gap + rest, Word, w) == Emit(w) + Split(rest)
  {
    if gap == "" {
      assert gap + rest == "" && Split(rest) == [];
    } else {
      assert (gap + rest)[1..] == gap[1..] + rest;
      SkipSpace(gap[1..], rest);
    }
  }

  lemma SplitOfItem(it: Item, more: string)
    requires AllWritable(it.pieces) && AllSpace(it.gap) && (it.gap == "" ==> more == "")
    ensures Split(QuoteAll(it.pieces) + it.gap + more) == Emit(WordOf(it.pieces)) + Split(more)
  {
    var s := QuoteAll(it.pieces) + (it.gap + more);
    Regroup(QuoteAll(it.pieces), it.gap, more);
    BlankScansLikeWord(s, "");
    ScanPieces(it.pieces, it.gap + more, "");
    assert "" + WordOf(it.pieces) == WordOf(it.pieces);
    CloseWord(WordOf(it.pieces), it.gap, more);
  }

  lemma {:induction false} SplitOfItems(items: seq<Item>)
    requires Separated(items)
    ensures Split(Layout(items)) == NonEmpty(Words(items))
    decreases |items|
  {
    if items == [] {
    } else {
      SplitOfItem(items[0], Layout(items[1..]));
      SplitOfItems(items[1..]);
      assert Words(items)[1..] == Words(items[1..]);
    }
  }

  /** Splitting inverts quoting: any words, each written in any pieces of any style, with any
      white space before, between and after them, come back without the empty ones; all of them
      come back exactly when none is empty. */
  lemma SplitInvertsQuoting(lead: string, items: seq<Item>)
    requires AllSpace(lead) && Separated(items)
    ensures Split(lead + Layout(items)) == NonEmpty(Words(items))
    ensures Split(lead + Layout(items)) == Words(items) <==> "" !in Words(items)
  {
    SkipSpace(lead, Layout(items));
    SplitOfItems(items);
    NonEmptyIsShorter(Words(items));
  }

  // ---------------------------------------------------------------- composition

  function ModeAfter(s: string, m: Mode): Mode {
    if s == "" then m else ModeAfter(s[1..], Next(m, s[0]))
  }

  predicate Outside(m: Mode) {
    m.Blank? || m.Word?
  }

  /** Everything the scan writes, word boundaries forgotten. */
  function Outs(s: string, m: Mode): string {
    if s == "" then "" else Out(m, s[0]) + Outs(s[1..], Next(m, s[0]))
  }

  function Flat(ws: seq<string>): string {
    if ws == [] then "" else ws[0] + Flat(ws[1..])
  }

  lemma {:induction false} FlatEmit(token: string, ws: seq<string>)
    ensures Flat(Emit(token) + ws) == token + Flat(ws)
  {
    if token == "" {
      assert Emit(token) + ws == ws;
    } else {
      assert (Emit(token) + ws)[1..] == ws;
    }
  }

  lemma {:induction false} FlatOfSplit(s: string, m: Mode, token: string)
    ensures Flat(SplitFrom(s, m, token)) == token + Outs(s, m)
    decreases |s|
  {
    if s == "" {
      FlatEmit(token, []);
      assert Emit(token) + [] == Emit(token);
    } else if Stops(m, s[0]) {
      FlatOfSplit(s[1..], Blank, "");
      FlatEmit(token, SplitFrom(s[1..], Blank, ""));
    } else {
      FlatOfSplit(s[1..], Next(m, s[0]), token + Out(m, s[0]));
      Regroup(token, Out(m, s[0]), Outs(s[1..], Next(m, s[0])));
    }
  }

  lemma {:induction false} SplitFromAppend(a: string, sp: char, b: string, m: Mode, token: string)
    requires IsSpace(sp) && Outside(ModeAfter(a, m))
    ensures SplitFrom(a + [sp] + b, m, token) == SplitFrom(a, m, token) + Split(b)
    decreases |a|
  {
    var s := a + [sp] + b;
    if a == "" {
      assert s[0] == sp && s[1..] == b;
    } else {
      assert s[1..] == a[1..] + [sp] + b;
      if Stops(m, a[0]) {
        SplitFromAppend(a[1..], sp, b, Blank, "");
      } else {
        SplitFromAppend(a[1..], sp, b, Next(m, a[0]), token + Out(m, a[0]));
      }
    }
  }

  lemma {:induction false} OutsAppend(a: string, c: char, m: Mode)
    ensures Outs(a + [c], m) == Outs(a, m) + Out(ModeAfter(a, m), c)
    decreases |a|
  {
    if a == "" {
      assert (a + [c])[1..] == "";
    } else {
      assert (a + [c])[1..] == a[1..] + [c];
      OutsAppend(a[1..], c, Next(m, a[0]));
    }
  }

  /** White space separates `a` from whatever follows exactly when the scan of `a`
      ends outside quotes and escapes. */
  lemma SplitComposes(a: string, sp: char)
    requires IsSpace(sp)
    ensures Outside(ModeAfter(a, Blank)) <==> (forall b :: Split(a + [sp] + b) == Split(a) + Split(b))
  {
    if Outside(ModeAfter(a, Blank)) {
      forall b ensures Split(a + [sp] + b) == Split(a) + Split(b) {
        SplitFromAppend(a, sp, b, Blank, "");
      }
    } else {
      assert a + [sp] + "" == a + [sp];
      FlatOfSplit(a + [sp], Blank, "");
      FlatOfSplit(a, Blank, "");
      OutsAppend(a, sp, Blank);
      assert Out(ModeAfter(a, Blank), sp) != "";
      assert Split("") == [];
      assert Split(a) + Split("") == Split(a);
      assert Split(a + [sp] + "") != Split(a) + Split("");
    }
  }

  // ---------------------------------------------------------------- what comes out

  predicate Subsequence(x: string, y: string) {
    x == "" || (y != "" && (if x[0] == y[0] then Subsequence(x[1..], y[1..]) else Subsequence(x, y[1..])))
  }

  lemma {:induction false} SubsequenceWeaken(x: string, y: string, c: char)
    requires Subsequence(x, y)
    ensures Subsequence(x, [c] + y)
    ensures x != "" ==> Subsequence(x[1..], y)
    decreases |y|
  {
    assert ([c] + y)[1..] == y;
    if x == "" {
    } else {
      if x[0] == y[0] {
        assert y == [y[0]] + y[1..];
        SubsequenceWeaken(x[1..], y[1..], y[0]);
      } else {
        SubsequenceWeaken(x, y[1..], y[0]);
        SubsequenceWeaken(x[1..], y[1..], y[0]);
        assert y == [y[0]] + y[1..];
      }
    }
  }

  lemma {:induction false} OutsSubsequence(s: string, m: Mode)
    ensures Subsequence(Outs(s, m), if m.DoubleEscape? then "\\" + s else s)
    decreases |s|
  {
    if s == "" {
    } else {
      var c, n, o := s[0], Next(m, s[0]), Outs(s[1..], Next(m, s[0]));
      OutsSubsequence(s[1..], n);
      assert s == [c] + s[1..];
      if m.DoubleEscape? {
        assert ("\\" + s)[1..] == s;
        assert Subsequence([c] + o, s) by { assert ([c] + o)[1..] == o; }
        if c == '\\' || c == '\"' {
          SubsequenceWeaken([c] + o, s, '\\');
        } else {
          assert (['\\', c] + o)[1..] == [c] + o;
        }
      } else if Out(m, c) == "" {
        assert Out(m, c) + o == o;
        if !n.DoubleEscape? { SubsequenceWeaken(o, s[1..], c); }
      } else {
        assert ([c] + o)[1..] == o;
      }
    }
  }

  /** Splitting only drops characters: what is left keeps its order. */
  lemma SplitOnlyDrops(s: string)
    ensures Subsequence(Flat(Split(s)), s)
  {
    FlatOfSplit(s, Blank, "");
    assert "" + Outs(s, Blank) == Outs(s, Blank);
    OutsSubsequence(s, Blank);
  }

  predicate Plain(s: string) {
    forall i :: 0 <= i < |s| ==> !IsQuote(s[i]) && !IsEscape(s[i])
  }

  /** Length of the longest prefix without white space. */
  function RunLength(s: string): (n: nat)
    ensures n <= |s|
    ensures forall i :: 0 <= i < n ==> !IsSpace(s[i])
    ensures n < |s| ==> IsSpace(s[n])
  {
    if s == "" || IsSpace(s[0]) then 0 else 1 + RunLength(s[1..])
  }

  function Fields(s: string): seq<string> {
    if s == "" then []
    else if IsSpace(s[0]) then Fields(s[1..])
    else [s[..RunLength(s)]] + Fields(s[RunLength(s)..])
  }

  lemma {:induction false} PlainWord(s: string, token: string)
    requires Plain(s) && token != ""
    ensures SplitFrom(s, Word, token) == [token + s[..RunLength(s)]] + Split(s[RunLength(s)..])
    decreases |s|
  {
    if s == "" || IsSpace(s[0]) {
      assert token + s[..0] == token;
      assert s[0..] == s;
    } else {
      PlainWord(s[1..], token + [s[0]]);
      var n := RunLength(s);
      assert s[1..][..n - 1] == s[1..n] && s[1..][n - 1..] == s[n..];
      assert token + [s[0]] + s[1..n] == token + s[..n];
    }
  }

  /** Without quotes and backslashes the words are the white-space fields. */
  lemma {:induction false} PlainTextSplitsIntoFields(s: string)
    requires Plain(s)
    ensures Split(s) == Fields(s)
    decreases |s|
  {
    if s == "" {
    } else {
      if IsSpace(s[0]) {
        PlainTextSplitsIntoFields(s[1..]);
      } else {
        PlainWord(s[1..], [s[0]]);
        var n := RunLength(s);
        assert "" + [s[0]] == [s[0]];
        assert s[1..][..n - 1] == s[1..n] && s[1..][n - 1..] == s[n..];
        assert [s[0]] + s[1..n] == s[..n];
        PlainTextSplitsIntoFields(s[n..]);
      }
    }
  }

  // ---------------------------------------------------------------- POSIX

  function Text(word: Option<string>): string {
    if word.None? then "" else word.value
  }

  function Finish(word: Option<string>): seq<string> {
    if word.None? then [] else [word.value]
  }

  /** The POSIX words, empty ones included, of a text in which nothing is expanded and no
      character is an operator or starts a comment (IEEE Std 1003.1, Shell Command Language,
      section 2.2): a backslash quotes the next character, or goes with it if that is a newline;
      single quotes quote everything; inside double quotes a backslash quotes $, `, ", itself and
      the newline only. White space is unicode.IsSpace's, and what POSIX leaves open, a text that
      ends inside quotes or after a backslash, ends the word. */
  function Unquoted(s: string, word: Option<string>): seq<string>
    decreases |s|
  {
    if s == "" then Finish(word)
    else if IsSpace(s[0]) then Finish(word) + Unquoted(s[1..], None)
    else if s[0] == '\'' then InSingleQuotes(s[1..], Text(word))
    else if s[0] == '\"' then InDoubleQuotes(s[1..], Text(word))
    else if s[0] != '\\' then Unquoted(s[1..], Some(Text(word) + [s[0]]))
    else if |s| == 1 then Finish(word)
    else if s[1] == '\n' then Unquoted(s[2..], word)
    else Unquoted(s[2..], Some(Text(word) + [s[1]]))
  }

  function InSingleQuotes(s: string, w: string): seq<string>
    decreases |s|
  {
    if s == "" then [w]
    else if s[0] == '\'' then Unquoted(s[1..], Some(w))
    else InSingleQuotes(s[1..], w + [s[0]])
  }

  function InDoubleQuotes(s: string, w: string): seq<string>
    decreases |s|
  {
    if s == "" then [w]
    else if s[0] == '\"' then Unquoted(s[1..], Some(w))
    else if s[0] != '\\' then InDoubleQuotes(s[1..], w + [s[0]])
    else if |s| == 1 then [w]
    else if s[1] == '\n' then InDoubleQuotes(s[2..], w)
    else if s[1] in {'$', '`', '\"', '\\'} then InDoubleQuotes(s[2..], w + [s[1]])
    else InDoubleQuotes(s[2..], w + ['\\', s[1]])
  }

  function Posix(s: string): seq<string> {
    Unquoted(s, None)
  }

  /** What `c` adds to a POSIX word when it is read in mode `m`. */
  function PosixOut(m: Mode, c: char): string {
    match m
    case Escape => if c == '\n' then "" else [c]
    case DoubleEscape =>
      if c == '\n' then ""
      else if c == '$' || c == '`' || c == '\"' || c == '\\' then [c]
      else ['\\', c]
    case _ => Out(m, c)
  }

  /** Quotes make a word, even of nothing. */
  predicate Opens(m: Mode, c: char) {
    PosixOut(m, c) != "" || (Outside(m) && IsQuote(c))
  }

  /** The same reading character by character, along the modes of the splitter. */
  function PosixFrom(s: string, m: Mode, word: Option<string>): seq<string> {
    if s == "" then Finish(word)
    else if Stops(m, s[0]) then Finish(word) + PosixFrom(s[1..], Blank, None)
    else PosixFrom(s[1..], Next(m, s[0]), if Opens(m, s[0]) then Some(Text(word) + PosixOut(m, s[0])) else word)
  }

  /** The mode-by-mode reading is the reference, outside quotes. */
  lemma {:induction false} UnquotedModes(s: string, word: Option<string>)
    ensures PosixFrom(s, Blank, word) == Unquoted(s, word) == PosixFrom(s, Word, word)
    decreases |s|
  {
    if s == "" {
    } else {
      var c, rest := s[0], s[1..];
      assert Text(word) + "" == Text(word);
      if IsSpace(c) {
        UnquotedModes(rest, None);
      } else if c == '\'' {
        SingleModes(rest, Text(word));
      } else if c == '\"' {
        DoubleModes(rest, Text(word));
      } else if c != '\\' {
        UnquotedModes(rest, Some(Text(word) + [c]));
      } else if rest != "" {
        assert rest[1..] == s[2..];
        UnquotedModes(s[2..], if s[1] == '\n' then word else Some(Text(word) + [s[1]]));
      }
    }
  }

  lemma {:induction false} SingleModes(s: string, w: string)
    ensures PosixFrom(s, Single, Some(w)) == InSingleQuotes(s, w)
    decreases |s|
  {
    if s == "" {
    } else if s[0] == '\'' {
      UnquotedModes(s[1..], Some(w));
    } else {
      SingleModes(s[1..], w + [s[0]]);
    }
  }

  lemma {:induction false} DoubleModes(s: string, w: string)
    ensures PosixFrom(s, Double, Some(w)) == InDoubleQuotes(s, w)
    decreases |s|
  {
    if s == "" {
    } else if s[0] == '\"' {
      UnquotedModes(s[1..], Some(w));
    } else if s[0] != '\\' {
      DoubleModes(s[1..], w + [s[0]]);
    } else if |s| > 1 {
      assert s[1..][1..] == s[2..] && w + "" == w;
      DoubleModes(s[2..], w + PosixOut(DoubleEscape, s[1]));
    }
  }

  function PosixOuts(s: string, m: Mode): string {
    if s == "" then "" else PosixOut(m, s[0]) + PosixOuts(s[1..], Next(m, s[0]))
  }

  /** A backslash-newline outside single quotes, or a backslash before $ or ` inside double quotes. */
  predicate Deviates(m: Mode, c: char) {
    || (c == '\n' && (m.Escape? || m.DoubleEscape?))
    || (m.DoubleEscape? && (c == '$' || c == '`'))
  }

  predicate NeverDeviates(s: string, m: Mode) {
    s == "" || (!Deviates(m, s[0]) && NeverDeviates(s[1..], Next(m, s[0])))
  }

  lemma FlatFinish(word: Option<string>, ws: seq<string>)
    ensures Flat(Finish(word) + ws) == Text(word) + Flat(ws)
  {
    if word.None? {
      assert Finish(word) + ws == ws;
    } else {
      assert (Finish(word) + ws)[1..] == ws;
    }
  }

  lemma {:induction false} FlatOfPosix(s: string, m: Mode, word: Option<string>)
    ensures Flat(PosixFrom(s, m, word)) == Text(word) + PosixOuts(s, m)
    decreases |s|
  {
    if s == "" {
      FlatFinish(word, []);
      assert Finish(word) + [] == Finish(word);
    } else if Stops(m, s[0]) {
      FlatOfPosix(s[1..], Blank, None);
      FlatFinish(word, PosixFrom(s[1..], Blank, None));
      assert Text(None) + PosixOuts(s[1..], Blank) == PosixOuts(s[1..], Blank) == PosixOuts(s, m);
    } else {
      var out, more := PosixOut(m, s[0]), PosixOuts(s[1..], Next(m, s[0]));
      FlatOfPosix(s[1..], Next(m, s[0]), if Opens(m, s[0]) then Some(Text(word) + out) else word);
      Regroup(Text(word), out, more);
      if !Opens(m, s[0]) { assert Text(word) + out == Text(word); }
    }
  }

  /** The code never writes less than POSIX, and as much exactly when nothing deviates. */
  lemma {:induction false} WritesAtLeastPosix(s: string, m: Mode)
    ensures |PosixOuts(s, m)| <= |Outs(s, m)|
    ensures |PosixOuts(s, m)| == |Outs(s, m)| <==> NeverDeviates(s, m)
    decreases |s|
  {
    if s == "" {
    } else {
      WritesAtLeastPosix(s[1..], Next(m, s[0]));
    }
  }

  lemma NonEmptyFinish(word: Option<string>, ws: seq<string>)
    ensures NonEmpty(Finish(word) + ws) == Emit(Text(word)) + NonEmpty(ws)
  {
    if word.None? {
      assert Finish(word) + ws == ws && Emit("") + NonEmpty(ws) == NonEmpty(ws);
    } else {
      assert (Finish(word) + ws)[1..] == ws;
    }
  }

  /** Where nothing deviates, the code's words are the POSIX words that are not empty. */
  lemma {:induction false} SplitIsPosixWithoutEmpty(s: string, m: Mode, word: Option<string>)
    requires NeverDeviates(s, m)
    ensures SplitFrom(s, m, Text(word)) == NonEmpty(PosixFrom(s, m, word))
    decreases |s|
  {
    if s == "" {
      NonEmptyFinish(word, []);
      assert Finish(word) + [] == Finish(word) && Emit(Text(word)) + [] == Emit(Text(word));
    } else if Stops(m, s[0]) {
      SplitIsPosixWithoutEmpty(s[1..], Blank, None);
      NonEmptyFinish(word, PosixFrom(s[1..], Blank, None));
    } else {
      var next := if Opens(m, s[0]) then Some(Text(word) + PosixOut(m, s[0])) else word;
      assert PosixOut(m, s[0]) == Out(m, s[0]);
      assert Text(next) == Text(word) + Out(m, s[0]);
      SplitIsPosixWithoutEmpty(s[1..], Next(m, s[0]), next);
    }
  }

  /** The splitter does what POSIX asks exactly on the texts in which no backslash-newline
      stands outside single quotes, no backslash precedes $ or ` inside double quotes, and no
      word is empty. */
  lemma PosixExactlyWhen(s: string)
    ensures Split(s) == Posix(s) <==> NeverDeviates(s, Blank) && "" !in Posix(s)
  {
    UnquotedModes(s, None);
    NonEmptyIsShorter(Posix(s));
    if NeverDeviates(s, Blank) {
      SplitIsPosixWithoutEmpty(s, Blank, None);
    } else {
      FlatOfSplit(s, Blank, "");
      FlatOfPosix(s, Blank, None);
      WritesAtLeastPosix(s, Blank);
    }
  }

  /** An empty quoted word. */
  lemma EmptyWordIsNotPosix()
    ensures Split("''") != Posix("''")
  {
    var q := ['\''];
    assert "''" == q + q && (q + q)[1..] == q && q[1..] == "";
    assert Posix(q + q) == InSingleQuotes(q, "") == Unquoted("", Some(""));
    PosixExactlyWhen("''");
  }

  /** A dollar sign quoted inside double quotes. */
  lemma QuotedDollarIsNotPosix()
    ensures Split("\"\\$\"") != Posix("\"\\$\"")
  {
    var rest := "$\"";
    assert "\"\\$\""[1..] == "\\$\"" && "\\$\""[1..] == rest;
    assert Deviates(DoubleEscape, rest[0]) && !NeverDeviates(rest, DoubleEscape);
    assert !NeverDeviates("\\$\"", Double);
    PosixExactlyWhen("\"\\$\"");
  }

  /** A line continuation. */
  lemma ContinuationIsNotPosix()
    ensures Split("a\\\nb") != Posix("a\\\nb")
  {
    var rest := "\nb";
    assert "a\\\nb"[1..] == "\\\nb" && "\\\nb"[1..] == rest;
    assert Deviates(Escape, rest[0]) && !NeverDeviates(rest, Escape);
    assert !NeverDeviates("\\\nb", Word);
    PosixExactlyWhen("a\\\nb");
  }
}
