/** The newline rewriting that session.Write applies when a PTY was accepted (session.go). */
module Newlines {
  import opened Basics

  const LF: byte := 10
  const CR: byte := 13

  /** bytes.ReplaceAll for a non-empty pattern: leftmost matches, never overlapping. */
  function ReplaceAll(s: Bytes, pattern: Bytes, sub: Bytes): Bytes
    requires pattern != []
  {
    if |s| < |pattern| then s
    else if s[..|pattern|] == pattern then sub + ReplaceAll(s[|pattern|..], pattern, sub)
    else [s[0]] + ReplaceAll(s[1..], pattern, sub)
  }

  /** What Write hands to the channel: two replacement passes. */
  function Normalize(s: Bytes): Bytes {
    ReplaceAll(ReplaceAll(s, [LF], [CR, LF]), [CR, CR, LF], [CR, LF])
  }

  /** One pass: a CR goes before each LF that does not follow a CR. */
  function OnePass(s: Bytes, afterCr: bool): Bytes {
    if s == [] then []
    else if s[0] == LF && !afterCr then [CR, LF] + OnePass(s[1..], false)
    else [s[0]] + OnePass(s[1..], s[0] == CR)
  }

  /** The number of LF bytes that do not follow a CR. */
  function BareLfs(s: Bytes, afterCr: bool): nat {
    if s == [] then 0
    else (if s[0] == LF && !afterCr then 1 else 0) + BareLfs(s[1..], s[0] == CR)
  }

  function EndsInCr(s: Bytes, afterCr: bool): bool {
    if s == [] then afterCr else s[|s| - 1] == CR
  }

  // ---------------------------------------------------------------- two passes are one pass

  function Doubled(s: Bytes): Bytes {
    ReplaceAll(s, [LF], [CR, LF])
  }

  function Collapsed(s: Bytes): Bytes {
    ReplaceAll(s, [CR, CR, LF], [CR, LF])
  }

  lemma DoubledCons(s: Bytes)
    requires s != []
    ensures Doubled(s) == (if s[0] == LF then [CR, LF] else [s[0]]) + Doubled(s[1..])
    ensures Doubled(s)[0] == if s[0] == LF then CR else s[0]
  {
    assert s[..1] == [s[0]];
  }

  lemma CollapsedKeep(c: byte, t: Bytes)
    requires c != CR || |t| < 2 || t[0] != CR || t[1] != LF
    ensures Collapsed([c] + t) == [c] + Collapsed(t)
  {
    var u := [c] + t;
    assert u[1..] == t;
    if |u| >= 3 {
      assert u[..3] == [c, t[0], t[1]];
    } else {
      assert Collapsed(u) == u && Collapsed(t) == t;
    }
  }

  lemma CollapsedPair(t: Bytes)
    ensures Collapsed([CR, LF] + t) == [CR, LF] + Collapsed(t)
  {
    assert [CR, LF] + t == [CR] + ([LF] + t);
    CollapsedKeep(CR, [LF] + t);
    CollapsedKeep(LF, t);
    assert [CR] + ([LF] + Collapsed(t)) == [CR, LF] + Collapsed(t);
  }

  lemma CollapsedTriple(t: Bytes)
    ensures Collapsed([CR, CR, LF] + t) == [CR, LF] + Collapsed(t)
  {
    assert ([CR, CR, LF] + t)[..3] == [CR, CR, LF] && ([CR, CR, LF] + t)[3..] == t;
  }

  lemma CrMatters(s: Bytes)
    ensures OnePass(s, true) == OnePass(s, false) <==> s == [] || s[0] != LF
  {
    if s != [] && s[0] == LF {
      assert OnePass(s, true)[0] == LF && OnePass(s, false)[0] == CR;
    }
  }

  lemma {:induction false} NormalizeIsOnePass(s: Bytes)
    ensures Normalize(s) == OnePass(s, false)
    decreases |s|
  {
    if s == [] {
      assert Normalize(s) == [];
    } else {
      var more := s[1..];
      DoubledCons(s);
      NormalizeIsOnePass(more);
      if s[0] == LF {
        CollapsedPair(Doubled(more));
      } else if s[0] == CR && more != [] && more[0] == LF {
        DoubledCons(more);
        assert Doubled(s) == [CR, CR, LF] + Doubled(more[1..]);
        CollapsedTriple(Doubled(more[1..]));
        NormalizeIsOnePass(more[1..]);
        assert OnePass(more, true) == [LF] + OnePass(more[1..], false);
        assert [CR] + ([LF] + OnePass(more[1..], false)) == [CR, LF] + OnePass(more[1..], false);
      } else {
        if more != [] {
          DoubledCons(more);
          if more[1..] != [] { DoubledCons(more[1..]); }
        }
        CollapsedKeep(s[0], Doubled(more));
        CrMatters(more);
      }
    }
  }

  // ---------------------------------------------------------------- laws

  lemma {:induction false} OnePassAppend(a: Bytes, b: Bytes, afterCr: bool)
    ensures OnePass(a + b, afterCr) == OnePass(a, afterCr) + OnePass(b, EndsInCr(a, afterCr))
    decreases |a|
  {
    if a == [] {
      assert a + b == b;
    } else {
      assert (a + b)[1..] == a[1..] + b;
      OnePassAppend(a[1..], b, a[0] == CR);
    }
  }

  lemma {:induction false} OnePassLength(s: Bytes, afterCr: bool)
    ensures |OnePass(s, afterCr)| == |s| + BareLfs(s, afterCr)
    ensures BareLfs(s, afterCr) == 0 ==> OnePass(s, afterCr) == s
    decreases |s|
  {
    if s == [] {
    } else {
      OnePassLength(s[1..], s[0] == CR);
    }
  }

  lemma {:induction false} OnePassLeavesNoBareLf(s: Bytes, afterCr: bool)
    ensures BareLfs(OnePass(s, afterCr), afterCr) == 0
    decreases |s|
  {
    if s == [] {
    } else {
      OnePassLeavesNoBareLf(s[1..], s[0] == CR);
      var t := OnePass(s[1..], s[0] == CR);
      if s[0] == LF && !afterCr {
        assert ([CR, LF] + t)[1..] == [LF] + t && ([LF] + t)[1..] == t;
      } else {
        assert ([s[0]] + t)[1..] == t;
      }
    }
  }

  /** The result is one byte longer for each bare LF, so it never shrinks. */
  lemma NormalizeLength(s: Bytes)
    ensures |Normalize(s)| == |s| + BareLfs(s, false)
  {
    NormalizeIsOnePass(s);
    OnePassLength(s, false);
  }

  lemma NormalizeIdempotent(s: Bytes)
    ensures Normalize(Normalize(s)) == Normalize(s)
    ensures Normalize(s) == s <==> BareLfs(s, false) == 0
  {
    NormalizeIsOnePass(s);
    NormalizeIsOnePass(Normalize(s));
    OnePassLeavesNoBareLf(s, false);
    OnePassLength(Normalize(s), false);
    OnePassLength(s, false);
  }

  /** Two writes give the same bytes as one exactly when the cut does not part a CR from an LF. */
  lemma NormalizeDistributes(a: Bytes, b: Bytes)
    ensures Normalize(a + b) == Normalize(a) + Normalize(b)
       <==> !(a != [] && a[|a| - 1] == CR && b != [] && b[0] == LF)
  {
    NormalizeIsOnePass(a + b);
    NormalizeIsOnePass(a);
    NormalizeIsOnePass(b);
    OnePassAppend(a, b, false);
    CrMatters(b);
  }

  // ---------------------------------------------------------------- the count that Write reports

  /** Write's result when the channel took `taken` of the rewritten bytes. */
  function Reported(s: Bytes, taken: nat): nat {
    if taken > |s| then |s| else taken
  }

  lemma {:induction false} BareLfsAppend(a: Bytes, b: Bytes, afterCr: bool)
    ensures BareLfs(a + b, afterCr) == BareLfs(a, afterCr) + BareLfs(b, EndsInCr(a, afterCr))
    decreases |a|
  {
    if a == [] {
      assert a + b == b;
    } else {
      assert (a + b)[1..] == a[1..] + b;
      BareLfsAppend(a[1..], b, a[0] == CR);
    }
  }

  /** The reported count of caller bytes accounts for what the channel took exactly when the
      channel took everything or took no more than the caller's bytes before the first bare LF. */
  lemma ReportedCountIsHonest(s: Bytes, taken: nat)
    requires taken <= |Normalize(s)|
    ensures taken == |Normalize(s)| ==> Reported(s, taken) == |s|
    ensures Normalize(s[..Reported(s, taken)]) == Normalize(s)[..taken]
       <==> taken == |Normalize(s)| || (taken <= |s| && BareLfs(s[..taken], false) == 0)
  {
    NormalizeLength(s);
    var n := Reported(s, taken);
    var a, b := s[..n], s[n..];
    assert s == a + b;
    NormalizeIsOnePass(s);
    NormalizeIsOnePass(a);
    NormalizeLength(a);
    OnePassAppend(a, b, false);
    BareLfsAppend(a, b, false);
    if taken == |Normalize(s)| { assert a == s && Normalize(s)[..taken] == Normalize(s); }
  }
  /** A bare LF of which only the added CR was sent is reported as sent. */
  lemma ShortCountCanExceed()
    ensures Reported([LF], 1) == 1 && 1 <= |Normalize([LF])|
    ensures Normalize([LF][..Reported([LF], 1)]) != Normalize([LF])[..1]
  {
    NormalizeLength([LF]);
    assert [LF][..1] == [LF] && [LF][1..] == [];
    ReportedCountIsHonest([LF], 1);
  }
}
