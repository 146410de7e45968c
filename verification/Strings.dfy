/** Strings in a file: maximal runs of printable bytes.  A scan keeps the run
    that ends at the current byte; here are the facts about such scans, and
    what they count in terms of the file alone. */
module Strings {

  newtype byte = x: int | 0 <= x < 256

  /** isspace or isprint, in the "C" locale. */
  predicate Printable(b: byte)
  {
    9 <= b <= 13 || 32 <= b <= 126
  }

  /** The white space of C (tab, newline, vertical tab, form feed, carriage return
      and blank) and its graphic characters from '!' to '~'. */
  lemma PrintableBytes(b: byte)
    ensures Printable(b) <==> b in {9, 10, 11, 12, 13, 32} || '!' as int <= b as int <= '~' as int
  {
  }

  function Max(a: int, b: int): int
  {
    if a < b then b else a
  }

  function One(b: bool): int
  {
    if b then 1 else 0
  }

  // ----- the scan, byte by byte

  /** str_length after scanning f: the printable run at its end. */
  function Tail(f: seq<byte>): nat
  {
    if f == [] || !Printable(f[|f| - 1]) then 0 else 1 + Tail(f[..|f| - 1])
  }

  /** charsAtBegin after scanning f: the printable run at its start. */
  function Head(f: seq<byte>): nat
  {
    if f == [] || !Printable(f[0]) then 0 else 1 + Head(f[1..])
  }

  /** num_strings after scanning f: the times a run reached length 4. */
  function Count(f: seq<byte>): nat
  {
    if f == [] then 0 else Count(f[..|f| - 1]) + (if Tail(f) == 4 then 1 else 0)
  }

  /** The longest run met while scanning f. */
  function Longest(f: seq<byte>): nat
  {
    if f == [] then 0 else Max(Longest(f[..|f| - 1]), Tail(f))
  }

  predicate Whole(f: seq<byte>)
  {
    forall b | b in f :: Printable(b)
  }

  // ----- what the scan computes

  predicate IsRun(f: seq<byte>, a: int, b: int)
  {
    0 <= a <= b <= |f| && forall k | a <= k < b :: Printable(f[k])
  }

  /** Where the maximal runs of at least four printable bytes start. */
  function StringStarts(f: seq<byte>): set<int>
  {
    set a: int | 0 <= a <= |f| - 4 && StartsString(f, a)
  }

  predicate StartsString(f: seq<byte>, a: int)
    requires 0 <= a <= |f| - 4
  {
    IsRun(f, a, a + 4) && (a == 0 || !Printable(f[a - 1]))
  }

  lemma {:induction false} TailIsRun(f: seq<byte>, a: int)
    requires 0 <= a <= |f|
    ensures Tail(f) <= |f|
    ensures IsRun(f, a, |f|) <==> |f| - a <= Tail(f)
  {
    if f != [] {
      var e := f[..|f| - 1];
      if a < |f| {
        TailIsRun(e, a);
        assert IsRun(f, a, |f|) <==> IsRun(e, a, |e|) && Printable(f[|f| - 1]);
      } else {
        TailIsRun(e, |e|);
      }
    }
  }

  /** One more byte starts a string, four bytes back, when the run at the end
      reaches length four; the strings before it stay. */
  lemma NewStart(f: seq<byte>)
    requires f != []
    ensures StringStarts(f) == StringStarts(f[..|f| - 1]) + (if Tail(f) == 4 then {|f| - 4} else {})
  {
    hide Tail, StartsString;
    if |f| < 4 { TailIsRun(f, 0); } else { StartAtEnd(f); }
    forall k | 0 <= k < |f| - 4 ensures StartsString(f, k) <==> StartsString(f[..|f| - 1], k) {
      StartInFront(f, k);
    }
  }

  lemma StartInFront(f: seq<byte>, k: int)
    requires 0 <= k < |f| - 4
    ensures StartsString(f, k) <==> StartsString(f[..|f| - 1], k)
  {
  }

  lemma StartAtEnd(f: seq<byte>)
    requires 4 <= |f|
    ensures StartsString(f, |f| - 4) <==> Tail(f) == 4
  {
    var a := |f| - 4;
    TailIsRun(f, a);
    if 0 < a { TailIsRun(f, a - 1); }
  }

  /** The count is the number of maximal runs of at least four bytes. */
  lemma {:induction false} CountIsStrings(f: seq<byte>)
    ensures Count(f) == |StringStarts(f)|
  {
    if f == [] {
      assert StringStarts(f) == {};
    } else {
      CountIsStrings(f[..|f| - 1]);
      NewStart(f);
    }
  }

  /** The maximum is the length of some run, and of no shorter one. */
  lemma {:induction false} LongestIsLongestRun(f: seq<byte>)
    ensures exists a, b :: IsRun(f, a, b) && b - a == Longest(f)
    ensures forall a, b :: IsRun(f, a, b) ==> b - a <= Longest(f)
  {
    if f == [] {
      assert IsRun(f, 0, 0);
    } else {
      var e := f[..|f| - 1];
      LongestIsLongestRun(e);
      var a, b :| IsRun(e, a, b) && b - a == Longest(e);
      assert IsRun(f, a, b);
      TailIsRun(f, |f|);
      TailIsRun(f, |f| - Tail(f));
      assert IsRun(f, |f| - Tail(f), |f|);
      forall a, b | IsRun(f, a, b) ensures b - a <= Longest(f) {
        if b == |f| { TailIsRun(f, a); } else { assert IsRun(e, a, b); }
      }
    }
  }

  // ----- joining two pieces

  lemma Regroup(f: seq<byte>, g: seq<byte>, h: seq<byte>)
    ensures f + g + h == f + (g + h)
  {
  }

  /** How the count changes when runs of e and p bytes become one. */
  function Joined(e: int, p: int): int
  {
    One(e + p >= 4) - One(e >= 4) - One(p >= 4)
  }

  lemma {:induction false} WholeEnds(g: seq<byte>)
    ensures Tail(g) <= |g| && Head(g) <= |g|
    ensures Whole(g) <==> Tail(g) == |g|
    ensures Whole(g) <==> Head(g) == |g|
  {
    TailIsRun(g, 0);
    HeadOfWhole(g);
    if Whole(g) { assert IsRun(g, 0, |g|); }
  }

  lemma {:induction false} HeadOfWhole(g: seq<byte>)
    ensures Head(g) <= |g|
    ensures Whole(g) <==> Head(g) == |g|
  {
    if g != [] {
      HeadOfWhole(g[1..]);
      assert g == [g[0]] + g[1..];
    }
  }

  lemma {:induction false} HeadOfPrefix(g: seq<byte>)
    requires g != []
    ensures Head(g) == if Whole(g) then |g| else Head(g[..|g| - 1])
  {
    var e := g[..|g| - 1];
    if Whole(g) {
      HeadOfWhole(g);
    } else if |g| == 1 {
      assert e == [];
    } else if Printable(g[0]) {
      assert g == [g[0]] + g[1..];
      HeadOfPrefix(g[1..]);
      assert g[1..][..|g[1..]| - 1] == e[1..];
    }
  }

  lemma {:induction false} JoinTail(f: seq<byte>, g: seq<byte>)
    ensures Tail(f + g) == if Whole(g) then Tail(f) + |g| else Tail(g)
    decreases |g|
  {
    if g == [] {
      assert f + g == f;
    } else {
      var e := g[..|g| - 1];
      assert (f + g)[..|f + g| - 1] == f + e;
      JoinTail(f, e);
      assert g == e + [g[|g| - 1]];
    }
  }

  lemma {:induction false} JoinCount(f: seq<byte>, g: seq<byte>)
    ensures Count(f + g) == Count(f) + Count(g) + Joined(Tail(f), Head(g))
    decreases |g|
  {
    if g == [] {
      assert f + g == f;
    } else {
      var e := g[..|g| - 1];
      assert (f + g)[..|f + g| - 1] == f + e;
      JoinCount(f, e);
      JoinTail(f, g);
      HeadOfPrefix(g);
      WholeEnds(g);
      assert g == e + [g[|g| - 1]];
      WholeEnds(e);
    }
  }

  lemma LongestStep(f: seq<byte>, b: byte)
    ensures Longest(f + [b]) == Max(Longest(f), Tail(f + [b]))
  {
    assert (f + [b])[..|f|] == f;
  }

  /** Head and Tail after one more byte at the end of g. */
  lemma EndsStep(f: seq<byte>, e: seq<byte>, b: byte)
    ensures var g := e + [b];
            if Whole(g) then Head(g) == Tail(g) == |g| && Head(e) == |e| && Tail(f + g) == Tail(f) + |g|
            else Head(g) == Head(e) && Tail(f + g) == Tail(g)
  {
    hide Tail, Head;
    var g := e + [b];
    JoinTail(f, g);
    HeadOfPrefix(g);
    WholeEnds(g);
    WholeEnds(e);
    assert g[..|g| - 1] == e;
    if Whole(g) {
      forall x | x in e ensures x in g {}
    }
  }

  lemma {:induction false} JoinLongest(f: seq<byte>, g: seq<byte>)
    ensures Longest(f + g) == Max(Max(Longest(f), Longest(g)), Tail(f) + Head(g))
    decreases |g|
  {
    hide Longest, Tail, Head, Whole;
    if g == [] {
      assert f + g == f;
      TailBelowLongest(f);
      ScanOfWhole(g);
    } else {
      var e, b := g[..|g| - 1], g[|g| - 1];
      assert g == e + [b];
      JoinLongest(f, e);
      Regroup(f, e, [b]);
      LongestStep(f + e, b);
      LongestStep(e, b);
      EndsStep(f, e, b);
    }
  }

  /** Scanning f and then g, from the two scans alone. */
  lemma Join(f: seq<byte>, g: seq<byte>)
    ensures Tail(f + g) == if Whole(g) then Tail(f) + |g| else Tail(g)
    ensures Count(f + g) == Count(f) + Count(g) + Joined(Tail(f), Head(g))
    ensures Longest(f + g) == Max(Max(Longest(f), Longest(g)), Tail(f) + Head(g))
  {
    JoinTail(f, g);
    JoinCount(f, g);
    JoinLongest(f, g);
  }

  lemma TailBelowLongest(f: seq<byte>)
    ensures Tail(f) <= Longest(f)
    ensures Tail(f) >= 4 ==> Count(f) >= 1
  {
  }

  /** A piece that is all printable. */
  lemma {:induction false} ScanOfWhole(g: seq<byte>)
    requires Whole(g)
    ensures Head(g) == Tail(g) == Longest(g) == |g|
    ensures Count(g) == if |g| >= 4 then 1 else 0
  {
    WholeEnds(g);
    if g != [] {
      ScanOfWhole(g[..|g| - 1]);
    }
  }

  /** A piece with an unprintable byte, split at its first one. */
  lemma EndsCounted(g: seq<byte>)
    requires !Whole(g)
    ensures Count(g) >= One(Head(g) >= 4) + One(Tail(g) >= 4)
    ensures Head(g) < |g| && Tail(g) < |g|
  {
    WholeEnds(g);
    var h := Head(g);
    HeadIsRun(g);
    assert g == g[..h] + g[h..];
    ScanOfWhole(g[..h]);
    Join(g[..h], g[h..]);
    TailBelowLongest(g[h..]);
    assert Head(g[h..]) == 0;
  }

  lemma {:induction false} HeadIsRun(g: seq<byte>)
    ensures Head(g) <= |g| && Whole(g[..Head(g)])
    ensures Head(g) < |g| ==> !Printable(g[Head(g)])
  {
    if g != [] && Printable(g[0]) {
      HeadIsRun(g[1..]);
      assert g[..Head(g)] == [g[0]] + g[1..][..Head(g) - 1];
    }
  }

  // ----- many pieces

  function Concat(pieces: seq<seq<byte>>): seq<byte>
  {
    if pieces == [] then [] else Concat(pieces[..|pieces| - 1]) + pieces[|pieces| - 1]
  }
}
