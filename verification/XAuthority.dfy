/** prepareXAuthority of x11.go: the .Xauthority record written into one byte buffer
    with 16-bit positions, and the decoder that reads it back. */
module XAuthority {
  import opened Basics
  import opened Wire

  // ---------------------------------------------------------------- hexadecimal

  function HexValue(c: byte): Option<nat> {
    if 48 <= c <= 57 then Some(c as nat - 48)
    else if 97 <= c <= 102 then Some(c as nat - 87)
    else if 65 <= c <= 70 then Some(c as nat - 55)
    else None
  }

  function HexDigit(n: nat): byte
    requires n < 16
  {
    if n < 10 then (48 + n) as byte else (87 + n) as byte
  }

  /** hex.DecodeString: None for an odd length or a character that is no hex digit. */
  function HexDecode(s: Bytes): Option<Bytes> {
    if s == [] then Some([])
    else if |s| == 1 then None
    else match (HexValue(s[0]), HexValue(s[1]), HexDecode(s[2..]))
      case (Some(hi), Some(lo), Some(more)) =>
        if hi < 16 && lo < 16 then Some([(hi * 16 + lo) as byte] + more) else None
      case _ => None
  }

  function HexEncode(data: Bytes): Bytes {
    if data == [] then []
    else [HexDigit(data[0] as nat / 16), HexDigit(data[0] as nat % 16)] + HexEncode(data[1..])
  }

  lemma {:induction false} HexRoundTrip(data: Bytes)
    ensures HexDecode(HexEncode(data)) == Some(data)
    decreases |data|
  {
    if data == [] {
    } else {
      HexRoundTrip(data[1..]);
      var d := data[0] as nat;
      assert HexEncode(data)[2..] == HexEncode(data[1..]);
      assert HexValue(HexDigit(d / 16)) == Some(d / 16) && HexValue(HexDigit(d % 16)) == Some(d % 16);
      assert d / 16 * 16 + d % 16 == d;
      assert data == [data[0]] + data[1..];
    }
  }

  predicate IsHex(c: byte) {
    48 <= c <= 57 || 97 <= c <= 102 || 65 <= c <= 70
  }

  /** An even number of hex digits, in either case. */
  predicate IsHexText(s: Bytes) {
    |s| % 2 == 0 && forall i :: 0 <= i < |s| ==> IsHex(s[i])
  }

  function LowerCase(c: byte): byte {
    if 65 <= c <= 70 then c + 32 else c
  }

  function Lower(s: Bytes): Bytes {
    seq(|s|, i requires 0 <= i < |s| => LowerCase(s[i]))
  }

  lemma DigitInverse(hi: byte, lo: byte)
    requires IsHex(hi) && IsHex(lo)
    ensures HexValue(hi).Some? && HexValue(hi).value < 16 && HexValue(lo).Some? && HexValue(lo).value < 16
    ensures HexDigit(HexValue(hi).value) == LowerCase(hi) && HexDigit(HexValue(lo).value) == LowerCase(lo)
  {
  }

  lemma HexTextSplits(s: Bytes)
    requires |s| >= 2
    ensures IsHexText(s) <==> IsHex(s[0]) && IsHex(s[1]) && IsHexText(s[2..])
  {
    if IsHexText(s) {
      forall i | 0 <= i < |s[2..]| ensures IsHex(s[2..][i]) { assert s[2..][i] == s[i + 2]; }
    }
    if IsHex(s[0]) && IsHex(s[1]) && IsHexText(s[2..]) {
      forall i | 0 <= i < |s| ensures IsHex(s[i]) { assert i >= 2 ==> s[2..][i - 2] == s[i]; }
    }
  }

  lemma EncodeFirst(d: nat, more: Bytes, hi: nat, lo: nat)
    requires hi < 16 && lo < 16 && d == hi * 16 + lo
    ensures HexEncode([d as byte] + more) == [HexDigit(hi), HexDigit(lo)] + HexEncode(more)
  {
    assert d / 16 == hi && d % 16 == lo;
    assert ([d as byte] + more)[1..] == more;
  }

  /** Decoding succeeds exactly on an even number of hex digits, and then it is undone by encoding,
      but for the case of the digits. */
  lemma {:induction false} HexInverse(s: Bytes)
    ensures HexDecode(s).Some? <==> IsHexText(s)
    ensures HexDecode(s).Some? ==> HexEncode(HexDecode(s).value) == Lower(s)
    decreases |s|
  {
    if |s| <= 1 {
    } else {
      HexInverse(s[2..]);
      HexTextSplits(s);
      if IsHexText(s) {
        DigitInverse(s[0], s[1]);
        var hi, lo := HexValue(s[0]).value, HexValue(s[1]).value;
        EncodeFirst(hi * 16 + lo, HexDecode(s[2..]).value, hi, lo);
        assert Lower(s) == [LowerCase(s[0]), LowerCase(s[1])] + Lower(s[2..]);
      }
    }
  }

  // ---------------------------------------------------------------- decimal seat numbers

  function Digits10(n: nat): (s: Bytes)
    ensures s != [] && forall i :: 0 <= i < |s| ==> 48 <= s[i] <= 57
    ensures s[0] == 48 ==> n == 0 && |s| == 1
  {
    if n < 10 then [(48 + n) as byte] else Digits10(n / 10) + [(48 + n % 10) as byte]
  }

  /** strconv.Itoa */
  function Itoa(n: int): Bytes {
    if n < 0 then [45] + Digits10(-n) else Digits10(n)
  }

  function Value10(s: Bytes): int {
    if s == [] then 0 else Value10(s[..|s| - 1]) * 10 + (s[|s| - 1] as int - 48)
  }

  function Atoi(s: Bytes): int {
    if s != [] && s[0] == 45 then -Value10(s[1..]) else Value10(s)
  }

  lemma {:induction false} Digits10RoundTrip(n: nat)
    ensures Value10(Digits10(n)) == n
  {
    if n < 10 {
      assert Digits10(n)[..0] == [];
    } else {
      Digits10RoundTrip(n / 10);
      var s := Digits10(n);
      assert s[..|s| - 1] == Digits10(n / 10);
      assert n / 10 * 10 + n % 10 == n;
    }
  }

  /** Decimal digits without a leading zero. */
  predicate IsDecimal(s: Bytes) {
    s != [] && (forall i :: 0 <= i < |s| ==> 48 <= s[i] <= 57) && (s[0] == 48 ==> |s| == 1)
  }

  /** There is one such spelling of each number. */
  lemma {:induction false} DecimalIsUnique(s: Bytes)
    requires IsDecimal(s)
    ensures Value10(s) >= 0 && (s[0] != 48 ==> Value10(s) > 0) && Digits10(Value10(s)) == s
    decreases |s|
  {
    var init, last := s[..|s| - 1], s[|s| - 1];
    assert s == init + [last];
    if init == [] {
      assert Value10(init) == 0;
    } else {
      DecimalIsUnique(init);
      var n := Value10(init) * 10 + (last as int - 48);
      assert n / 10 == Value10(init) && n % 10 == last as int - 48;
    }
  }

  lemma SeatRoundTrip(seat: int)
    ensures Atoi(Itoa(seat)) == seat
  {
    Digits10RoundTrip(if seat < 0 then -seat else seat);
    if seat < 0 { assert Itoa(seat)[1..] == Digits10(-seat); }
  }

  // ---------------------------------------------------------------- the record

  const AF_LOCAL: nat := 1

  datatype Entry = Entry(family: nat, host: Bytes, number: Bytes, name: Bytes, data: Bytes) {
    function Size(): nat {
      10 + |host| + |number| + |name| + |data|
    }

    function Fields(): seq<Bytes> {
      [host, number, name, data]
    }
  }

  function U16(n: nat, little: bool): (bs: Bytes)
    requires n < TWO_16
    ensures |bs| == 2
  {
    var hi, lo := (n / 0x100) as byte, (n % 0x100) as byte;
    if little then [lo, hi] else [hi, lo]
  }

  function U16Value(a: byte, b: byte, little: bool): (n: nat)
    ensures n < TWO_16
  {
    if little then b as int * 0x100 + a as int else a as int * 0x100 + b as int
  }

  function Field(x: Bytes): Bytes
    requires |x| < TWO_16
  {
    U16(|x|, false) + x
  }

  predicate Short(fields: seq<Bytes>) {
    forall i :: 0 <= i < |fields| ==> |fields[i]| < TWO_16
  }

  function EncodeFields(fields: seq<Bytes>): Bytes
    requires Short(fields)
  {
    if fields == [] then [] else Field(fields[0]) + EncodeFields(fields[1..])
  }

  /** Family in host byte order, then the four fields with big-endian lengths. */
  function EncodeEntry(e: Entry, little: bool): Bytes
    requires e.family < TWO_16 && Short(e.Fields())
  {
    U16(e.family, little) + EncodeFields(e.Fields())
  }

  function DecodeField(s: Bytes): (r: Option<Parsed<Bytes>>)
    ensures r.Some? ==> |s| == 2 + |r.value.value| + |r.value.rest|
  {
    if |s| < 2 then None
    else
      var n := U16Value(s[0], s[1], false);
      if |s| - 2 < n then None else Some(Parsed(s[2..2 + n], s[2 + n..]))
  }

  function TotalLength(fields: seq<Bytes>): nat {
    if fields == [] then 0 else 2 + |fields[0]| + TotalLength(fields[1..])
  }

  /** Exactly `n` fields, with nothing after them. */
  function DecodeFields(s: Bytes, n: nat): (r: Option<seq<Bytes>>)
    ensures r.Some? ==> |r.value| == n && |s| == TotalLength(r.value)
  {
    if n == 0 then (if s == [] then Some([]) else None)
    else match DecodeField(s)
      case None => None
      case Some(first) =>
        match DecodeFields(first.rest, n - 1)
        case None => None
        case Some(more) =>
          assert ([first.value] + more)[1..] == more;
          Some([first.value] + more)
  }

  function DecodeEntry(s: Bytes, little: bool): Option<Entry> {
    if |s| < 2 then None
    else match DecodeFields(s[2..], 4)
      case None => None
      case Some(f) => Some(Entry(U16Value(s[0], s[1], little), f[0], f[1], f[2], f[3]))
  }

  lemma FieldRoundTrip(x: Bytes, rest: Bytes)
    requires |x| < TWO_16
    ensures DecodeField(Field(x) + rest) == Some(Parsed(x, rest))
  {
    var s := Field(x) + rest;
    assert U16Value(s[0], s[1], false) == |x|;
    assert s[2..2 + |x|] == x && s[2 + |x|..] == rest;
  }

  lemma {:induction false} FieldsRoundTrip(fields: seq<Bytes>)
    requires Short(fields)
    ensures DecodeFields(EncodeFields(fields), |fields|) == Some(fields)
    decreases |fields|
  {
    if fields == [] {
    } else {
      FieldRoundTrip(fields[0], EncodeFields(fields[1..]));
      FieldsRoundTrip(fields[1..]);
      assert fields == [fields[0]] + fields[1..];
    }
  }

  lemma FourLengths(a: Bytes, b: Bytes, c: Bytes, d: Bytes)
    ensures TotalLength([a, b, c, d]) == 8 + |a| + |b| + |c| + |d|
  {
    assert [d][1..] == [] && TotalLength([d]) == 2 + |d|;
    assert [c, d][1..] == [d] && TotalLength([c, d]) == 4 + |c| + |d|;
    assert [b, c, d][1..] == [c, d] && TotalLength([b, c, d]) == 6 + |b| + |c| + |d|;
    assert [a, b, c, d][1..] == [b, c, d];
  }

  lemma DecodedSize(s: Bytes, little: bool)
    requires DecodeEntry(s, little).Some?
    ensures |s| == DecodeEntry(s, little).value.Size()
  {
    var f := DecodeFields(s[2..], 4).value;
    assert f == [f[0], f[1], f[2], f[3]];
    FourLengths(f[0], f[1], f[2], f[3]);
  }

  lemma EntryRoundTrip(e: Entry, little: bool)
    requires e.family < TWO_16 && Short(e.Fields())
    ensures DecodeEntry(EncodeEntry(e, little), little) == Some(e)
  {
    var s := EncodeEntry(e, little);
    FieldsRoundTrip(e.Fields());
    assert s[2..] == EncodeFields(e.Fields());
    assert U16Value(s[0], s[1], little) == e.family;
  }

  /** The record as the writer lays it out, field after field. */
  lemma EntryLayout(e: Entry, little: bool)
    requires e.family < TWO_16 && e.Size() < TWO_16
    ensures Short(e.Fields())
    ensures EncodeEntry(e, little)
         == U16(e.family, little) + Field(e.host) + Field(e.number) + Field(e.name) + Field(e.data)
  {
    var a, b, c, d := e.host, e.number, e.name, e.data;
    assert [d][1..] == [] && Field(d) + [] == Field(d) && EncodeFields([d]) == Field(d);
    assert [c, d][1..] == [d] && EncodeFields([c, d]) == Field(c) + Field(d);
    assert [b, c, d][1..] == [c, d] && EncodeFields([b, c, d]) == Field(b) + (Field(c) + Field(d));
    assert [a, b, c, d][1..] == [b, c, d];
    Nest(U16(e.family, little), Field(a), Field(b), Field(c), Field(d));
  }

  lemma Nest(x: Bytes, a: Bytes, b: Bytes, c: Bytes, d: Bytes)
    ensures x + a + b + c + d == x + (a + (b + (c + d)))
  {
  }

  // ---------------------------------------------------------------- the writer

  /** binary.BigEndian.PutUint16(buf[pos:], v), or its little-endian twin; false stands for the panic. */
  method PutU16(buf: array<byte>, pos: nat, v: nat, little: bool) returns (ok: bool)
    requires v < TWO_16
    modifies buf
    ensures ok <==> pos + 2 <= buf.Length
    ensures buf[..] == if ok then old(buf[..])[..pos] + U16(v, little) + old(buf[..])[pos + 2..] else old(buf[..])
  {
    if pos + 2 > buf.Length { return false; }
    buf[pos] := U16(v, little)[0];
    buf[pos + 1] := U16(v, little)[1];
    return true;
  }

  /** copy(buf[pos:], src): as much as fits; false stands for the slicing panic. */
  method CopyAt(buf: array<byte>, pos: nat, src: Bytes) returns (ok: bool)
    modifies buf
    ensures ok <==> pos <= buf.Length
    ensures !ok ==> buf[..] == old(buf[..])
    ensures ok && pos + |src| <= buf.Length ==>
              buf[..] == old(buf[..])[..pos] + src + old(buf[..])[pos + |src|..]
    ensures ok && pos + |src| > buf.Length ==>
              buf[..] == old(buf[..])[..pos] + src[..buf.Length - pos]
  {
    if pos > buf.Length { return false; }
    var n := if pos + |src| <= buf.Length then |src| else buf.Length - pos;
    forall i | 0 <= i < n {
      buf[pos + i] := src[i];
    }
    return true;
  }

  lemma ModAdd(x: nat, y: nat)
    ensures (x % TWO_16 + y) % TWO_16 == (x + y) % TWO_16
  {
  }

  lemma NextPosition(pos: nat, length: nat)
    ensures ((pos + 2) % TWO_16 + length % TWO_16) % TWO_16 == (pos + 2 + length) % TWO_16
  {
    ModAdd(pos + 2, length % TWO_16);
    ModAdd(length, pos + 2);
  }

  /** One length-prefixed field: its length cut to 16 bits, its bytes, and the next position. */
  method PutField(buf: array<byte>, pos: nat, src: Bytes, ghost done: Bytes) returns (ok: bool, next: nat)
    requires pos < TWO_16
    modifies buf
    ensures ok <==> pos + 2 <= buf.Length
    ensures next < TWO_16 && (ok ==> next == (pos + 2 + |src|) % TWO_16)
    ensures pos + 2 + |src| <= buf.Length < TWO_16 && done == old(buf[..pos]) ==>
              ok && next == pos + 2 + |src| && buf[..next] == done + Field(src)
  {
    var len := |src| % TWO_16;
    ghost var fits := pos + 2 + |src| <= buf.Length < TWO_16 && done == buf[..pos];
    NextPosition(pos, |src|);
    next := pos;
    ok := PutU16(buf, next, len, false);
    if !ok { return; }
    next := (next + 2) % TWO_16;
    assert next <= pos + 2;
    assert fits ==> next == pos + 2 && buf[..next] == done + U16(|src|, false);
    ok := CopyAt(buf, next, src);
    assert fits ==> buf[..next + |src|] == done + U16(|src|, false) + src;
    next := (next + len) % TWO_16;
  }

  /** Failed is the Go error result. */
  datatype Outcome = Failed | Panicked | Written(content: Bytes)

  /** The record that a request asks for. */
  function Wanted(request: X11, seat: int, host: Bytes): Entry
    requires HexDecode(request.data).Some?
  {
    Entry(AF_LOCAL, host, Itoa(seat), request.protocol, HexDecode(request.data).value)
  }

  /** From position `pos` on, every length prefix falls inside a buffer of `size` bytes when
      positions are cut to 16 bits. */
  predicate PrefixesFit(fields: seq<Bytes>, pos: nat, size: nat) {
    fields == [] || (pos + 2 <= size && PrefixesFit(fields[1..], (pos + 2 + |fields[0]|) % TWO_16, size))
  }

  /** No write of the record panics: the family and the four length prefixes fit. */
  predicate WritesFit(e: Entry, size: nat) {
    2 <= size && PrefixesFit(e.Fields(), 2, size)
  }

  lemma FourPrefixes(e: Entry, size: nat)
    ensures var p1 := (4 + |e.host|) % TWO_16;
            var p2 := (p1 + 2 + |e.number|) % TWO_16;
            var p3 := (p2 + 2 + |e.name|) % TWO_16;
            WritesFit(e, size) <==> 4 <= size && p1 + 2 <= size && p2 + 2 <= size && p3 + 2 <= size
  {
    var p1 := (4 + |e.host|) % TWO_16;
    var p2 := (p1 + 2 + |e.number|) % TWO_16;
    var p3 := (p2 + 2 + |e.name|) % TWO_16;
    assert e.Fields()[1..] == [e.number, e.name, e.data];
    assert [e.number, e.name, e.data][1..] == [e.name, e.data] && [e.name, e.data][1..] == [e.data];
    assert [e.data][1..] == [];
    assert PrefixesFit([e.data], p3, size) <==> p3 + 2 <= size;
    assert PrefixesFit([e.name, e.data], p2, size) <==> p2 + 2 <= size && p3 + 2 <= size;
    assert PrefixesFit([e.number, e.name, e.data], p1, size) <==> p1 + 2 <= size && p2 + 2 <= size && p3 + 2 <= size;
    assert (2 + 2 + |e.host|) % TWO_16 == p1;
  }

  /** A field written where it fits extends what is done by the encoded field. */
  ghost function Extended(fits: bool, done: Bytes, x: Bytes): Bytes {
    if fits && |x| < TWO_16 then done + Field(x) else []
  }

  /** All the in-place writes; false stands for a panic in one of them. */
  method WriteRecord(buf: array<byte>, e: Entry, little: bool) returns (ok: bool)
    requires e.family < TWO_16
    modifies buf
    ensures ok <==> WritesFit(e, buf.Length)
    ensures buf.Length == e.Size() < TWO_16 ==> ok && buf[..] == EncodeEntry(e, little)
  {
    ghost var fits := buf.Length == e.Size() < TWO_16;
    FourPrefixes(e, buf.Length);
    if fits { EntryLayout(e, little); }
    var pos := 0;
    ok := PutU16(buf, pos, e.family, little);
    if !ok { return; }
    pos := pos + 2;
    ghost var d0 := U16(e.family, little);
    assert buf[..pos] == d0;
    ok, pos := PutField(buf, pos, e.host, d0);
    if !ok { return; }
    ghost var d1 := Extended(fits, d0, e.host);
    ok, pos := PutField(buf, pos, e.number, d1);
    if !ok { return; }
    ghost var d2 := Extended(fits, d1, e.number);
    ok, pos := PutField(buf, pos, e.name, d2);
    if !ok { return; }
    ghost var d3 := Extended(fits, d2, e.name);
    ok, pos := PutField(buf, pos, e.data, d3);
    if !ok { return; }
    assert fits ==> pos == buf.Length && buf[..] == buf[..pos];
  }

  lemma LengthSum(a: nat, b: nat, c: nat, d: nat)
    ensures (a % TWO_16 + b % TWO_16 + c % TWO_16 + d % TWO_16 + 10) % TWO_16 == (10 + a + b + c + d) % TWO_16
  {
    ModAdd(a, b % TWO_16 + c % TWO_16 + d % TWO_16 + 10);
    ModAdd(b, a + c % TWO_16 + d % TWO_16 + 10);
    ModAdd(c, a + b + d % TWO_16 + 10);
    ModAdd(d, a + b + c + 10);
  }

  /** The buffer is as long as the 16-bit sum of the 16-bit lengths; writing panics exactly when
      some length prefix falls outside it. */
  method Fill(e: Entry, little: bool) returns (out: Outcome)
    requires e.family < TWO_16
    ensures !out.Failed? && (out.Panicked? <==> !WritesFit(e, e.Size() % TWO_16))
    ensures e.Size() < TWO_16 ==> out == Written(EncodeEntry(e, little))
    ensures out.Written? ==> |out.content| == e.Size() % TWO_16
  {
    var lengths := |e.host| % TWO_16 + |e.number| % TWO_16 + |e.name| % TWO_16 + |e.data| % TWO_16;
    var buf := new byte[(lengths + 10) % TWO_16](_ => 0);
    LengthSum(|e.host|, |e.number|, |e.name|, |e.data|);
    var ok := WriteRecord(buf, e, little);
    out := if ok then Written(buf[..]) else Panicked;
  }

  /** `host` is what os.Hostname answers and `little` what isLittleEndian answers.
      The buffer decodes to the wanted record exactly when its size fits 16 bits. */
  method PrepareXAuthority(request: X11, seat: int, host: Option<Bytes>, little: bool) returns (out: Outcome)
    ensures HexDecode(request.data).Some? <==> IsHexText(request.data)
    ensures out.Failed? <==> !IsHexText(request.data) || host.None?
    ensures !out.Failed? ==>
              var e := Wanted(request, seat, host.value);
              && (out.Panicked? <==> !WritesFit(e, e.Size() % TWO_16))
              && (e.Size() < TWO_16 ==> out == Written(EncodeEntry(e, little)))
              && (out.Written? && DecodeEntry(out.content, little) == Some(e) <==> e.Size() < TWO_16)
  {
    HexInverse(request.data);
    var decoded := HexDecode(request.data);
    if decoded.None? || host.None? { return Failed; }
    var e := Entry(AF_LOCAL, host.value, Itoa(seat), request.protocol, decoded.value);
    out := Fill(e, little);
    if e.Size() < TWO_16 { EntryRoundTrip(e, little); }
    if out.Written? && DecodeEntry(out.content, little).Some? { DecodedSize(out.content, little); }
  }

  lemma RecordRoundTrip(request: X11, seat: int, host: Bytes, little: bool, data: Bytes)
    requires HexDecode(request.data) == Some(data)
    requires 10 + |host| + |Itoa(seat)| + |request.protocol| + |data| < TWO_16
    ensures var e := Wanted(request, seat, host);
            && Short(e.Fields())
            && var read := DecodeEntry(EncodeEntry(e, little), little);
               && read == Some(e) && Atoi(e.number) == seat
               && e.family == 1 && IsDecimal(if seat < 0 then e.number[1..] else e.number)
               && e.host == host && e.name == request.protocol && e.data == data
  {
    SeatRoundTrip(seat);
    EntryRoundTrip(Wanted(request, seat, host), little);
  }

  /** From the client's bytes to the record and back: the authentication data that the
      client hex-encoded into its x11-req is what a reader of the record finds. */
  lemma ClientDataReachesRecord(flag: byte, protocol: Bytes, data: Bytes, screen: nat, tail: Bytes,
                                seat: int, host: Bytes, little: bool)
    requires IsU32(|protocol|) && IsU32(|HexEncode(data)|) && IsU32(screen)
    requires |EncodeX11(flag, protocol, HexEncode(data), screen, tail)| < TWO_32
    requires 10 + |host| + |Itoa(seat)| + |protocol| + |data| < TWO_16
    ensures var request := ParseX11Request(EncodeX11(flag, protocol, HexEncode(data), screen, tail));
            && request.Some? && HexDecode(request.value.data).Some?
            && var e := Wanted(request.value, seat, host);
               && Short(e.Fields())
               && var read := DecodeEntry(EncodeEntry(e, little), little);
                  && read.Some? && read.value.data == data && read.value.name == protocol
                  && read.value.host == host && read.value.family == 1
                  && Atoi(read.value.number) == seat
                  && (if seat < 0 then read.value.number == [45] + Digits10(-seat) else IsDecimal(read.value.number))
  {
    X11RoundTrip(flag, protocol, HexEncode(data), screen, tail);
    HexRoundTrip(data);
    RecordRoundTrip(X11(flag == 1, protocol, HexEncode(data), screen), seat, host, little, data);
  }
  /** A record of exactly 65536 bytes has a buffer of no bytes, and its first write panics. */
  lemma FullSizeDoesNotFit(e: Entry)
    requires e.Size() == TWO_16
    ensures !WritesFit(e, e.Size() % TWO_16)
  {
  }

  /** From the client's bytes: an x11-req whose record has that size is accepted as a request
      and its data decodes, and the writer panics on it. */
  lemma OversizeRequestPanics(flag: byte, protocol: Bytes, data: Bytes, screen: nat, tail: Bytes,
                              seat: int, host: Bytes)
    requires IsU32(|protocol|) && IsU32(|HexEncode(data)|) && IsU32(screen)
    requires |EncodeX11(flag, protocol, HexEncode(data), screen, tail)| < TWO_32
    requires 10 + |host| + |Itoa(seat)| + |protocol| + |data| == TWO_16
    ensures var request := ParseX11Request(EncodeX11(flag, protocol, HexEncode(data), screen, tail));
            && request.Some? && HexDecode(request.value.data).Some?
            && var e := Wanted(request.value, seat, host);
               !WritesFit(e, e.Size() % TWO_16)
  {
    X11RoundTrip(flag, protocol, HexEncode(data), screen, tail);
    HexRoundTrip(data);
    FullSizeDoesNotFit(Wanted(X11(flag == 1, protocol, HexEncode(data), screen), seat, host));
  }

  lemma {:induction false} HexLength(data: Bytes)
    ensures |HexEncode(data)| == 2 * |data|
    decreases |data|
  {
    if data == [] {
    } else {
      HexLength(data[1..]);
    }
  }

  /** Such a request exists for every seat number and every host name that leave room for it. */
  lemma OversizeRequestExists(seat: int, host: Bytes) returns (data: Bytes)
    requires 10 + |host| + |Itoa(seat)| <= TWO_16
    ensures 10 + |host| + |Itoa(seat)| + |data| == TWO_16
    ensures IsU32(|HexEncode(data)|) && |EncodeX11(0, [], HexEncode(data), 0, [])| < TWO_32
  {
    data := seq(TWO_16 - 10 - |host| - |Itoa(seat)|, _ => 0);
    HexLength(data);
  }
}
