/** The buffered scan when reads are short in the middle of the file: what is
    left of a buffer is zeros, which cut the file into blocks. */
module StringReads {
  import opened Strings
  import opened StringScan

  /** The bytes of the file between the cuts: a read goes on the block of the
      read before, unless that was short. */
  function Blocks(chunks: seq<seq<byte>>, size: nat): (blocks: seq<seq<byte>>)
    ensures chunks != [] ==> blocks != []
  {
    if chunks == [] then []
    else
      var n := |chunks| - 1;
      var before := Blocks(chunks[..n], size);
      if n == 0 || |chunks[n - 1]| < size then before + [chunks[n]]
      else before[..|before| - 1] + [before[|before| - 1] + chunks[n]]
  }

  function CountEach(blocks: seq<seq<byte>>): nat
  {
    if blocks == [] then 0 else CountEach(blocks[..|blocks| - 1]) + Count(blocks[|blocks| - 1])
  }

  function LongestOfEach(blocks: seq<seq<byte>>): nat
  {
    if blocks == [] then 0 else Max(LongestOfEach(blocks[..|blocks| - 1]), Longest(blocks[|blocks| - 1]))
  }

  lemma OneMoreBlock(front: seq<seq<byte>>, b: seq<byte>)
    ensures CountEach(front + [b]) == CountEach(front) + Count(b)
    ensures LongestOfEach(front + [b]) == Max(LongestOfEach(front), Longest(b))
    ensures Concat(front + [b]) == Concat(front) + b
  {
    assert (front + [b])[..|front|] == front;
  }

  // ----- the padded file is scanned block by block

  /** f is scanned like the blocks, and ends with the last of them if open. */
  predicate ScannedAs(f: seq<byte>, blocks: seq<seq<byte>>, open: bool)
  {
    && Count(f) == CountEach(blocks) && Longest(f) == LongestOfEach(blocks)
    && Tail(f) == (if open && blocks != [] then Tail(blocks[|blocks| - 1]) else 0)
  }

  lemma StartsBlock(f: seq<byte>, blocks: seq<seq<byte>>, g: seq<byte>)
    requires ScannedAs(f, blocks, false)
    ensures ScannedAs(f + g, blocks + [g], true)
  {
    hide Tail, Count, Longest, Head, CountEach, LongestOfEach;
    Join(f, g);
    OneMoreBlock(blocks, g);
    HeadBelowLongest(g);
    WholeEnds(g);
  }

  lemma HeadBelowLongest(g: seq<byte>)
    ensures Head(g) <= Longest(g) && Joined(0, Head(g)) == 0
  {
    HeadIsRun(g);
    LongestIsLongestRun(g);
    assert IsRun(g, 0, Head(g));
  }

  lemma ContinuesBlock(f: seq<byte>, front: seq<seq<byte>>, b: seq<byte>, g: seq<byte>)
    requires ScannedAs(f, front + [b], true)
    ensures ScannedAs(f + g, front + [b + g], true)
  {
    hide Tail, Count, Longest, Head, CountEach, LongestOfEach;
    Join(f, g);
    Join(b, g);
    OneMoreBlock(front, b);
    OneMoreBlock(front, b + g);
  }

  lemma ThenZeros(f: seq<byte>, blocks: seq<seq<byte>>, k: nat)
    requires ScannedAs(f, blocks, true)
    ensures ScannedAs(f + Zeros(k), blocks, k == 0)
  {
    hide Tail, Count, Longest, CountEach, LongestOfEach, Zeros;
    ZerosAddNothing(f, k);
  }

  lemma NoBlocks(size: nat)
    ensures ScannedAs(Padded([], size), Blocks([], size), false)
    ensures Concat(Blocks([], size)) == Concat([])
  {
  }

  lemma LastChunk(chunks: seq<seq<byte>>, size: nat)
    requires chunks != [] && forall j | 0 <= j < |chunks| :: |chunks[j]| <= size
    ensures var n := |chunks| - 1;
            && Padded(chunks, size) == Padded(chunks[..n], size) + chunks[n] + Zeros(size - |chunks[n]|)
            && Concat(chunks) == Concat(chunks[..n]) + chunks[n]
  {
  }

  lemma LastBlock(chunks: seq<seq<byte>>, size: nat)
    requires chunks != []
    ensures var n := |chunks| - 1;
            var before := Blocks(chunks[..n], size);
            Blocks(chunks, size)
            == if n == 0 || |chunks[n - 1]| < size then before + [chunks[n]]
               else before[..|before| - 1] + [before[|before| - 1] + chunks[n]]
  {
  }

  lemma {:induction false} ScansBlocks(chunks: seq<seq<byte>>, size: nat)
    requires forall j | 0 <= j < |chunks| :: |chunks[j]| <= size
    ensures ScannedAs(Padded(chunks, size), Blocks(chunks, size), chunks != [] && |chunks[|chunks| - 1]| == size)
  {
    hide Padded, Blocks, ScannedAs, Zeros;
    if chunks == [] {
      NoBlocks(size);
    } else {
      var n := |chunks| - 1;
      var f, blocks := Padded(chunks[..n], size), Blocks(chunks[..n], size);
      ScansBlocks(chunks[..n], size);
      LastChunk(chunks, size);
      LastBlock(chunks, size);
      if n == 0 || |chunks[n - 1]| < size {
        StartsBlock(f, blocks, chunks[n]);
      } else {
        var front, b := blocks[..|blocks| - 1], blocks[|blocks| - 1];
        assert blocks == front + [b];
        ContinuesBlock(f, front, b, chunks[n]);
      }
      ThenZeros(f + chunks[n], Blocks(chunks, size), size - |chunks[n]|);
    }
  }

  lemma {:induction false} BlocksCoverFile(chunks: seq<seq<byte>>, size: nat)
    requires forall j | 0 <= j < |chunks| :: |chunks[j]| <= size
    ensures Concat(Blocks(chunks, size)) == Concat(chunks)
  {
    hide Padded, Blocks, Concat, Zeros, CountEach, LongestOfEach, Count, Longest;
    if chunks == [] {
      NoBlocks(size);
    } else {
      var n := |chunks| - 1;
      var blocks := Blocks(chunks[..n], size);
      BlocksCoverFile(chunks[..n], size);
      LastChunk(chunks, size);
      LastBlock(chunks, size);
      if n == 0 || |chunks[n - 1]| < size {
        OneMoreBlock(blocks, chunks[n]);
      } else {
        var front, b := blocks[..|blocks| - 1], blocks[|blocks| - 1];
        assert blocks == front + [b];
        OneMoreBlock(front, b);
        OneMoreBlock(front, b + chunks[n]);
        Regroup(Concat(front), b, chunks[n]);
      }
    }
  }

  // ----- what the cuts change

  /** What joining every block to the bytes before it changes in the count. */
  function Joins(blocks: seq<seq<byte>>): int
  {
    if blocks == [] then 0
    else
      var before := blocks[..|blocks| - 1];
      Joins(before) + Joined(Tail(Concat(before)), Head(blocks[|blocks| - 1]))
  }

  /** The run across the cut before block k. */
  function Across(blocks: seq<seq<byte>>, k: nat): nat
    requires k < |blocks|
  {
    Tail(Concat(blocks[..k])) + Head(blocks[k])
  }

  lemma {:induction false} CountAcross(blocks: seq<seq<byte>>)
    ensures Count(Concat(blocks)) == CountEach(blocks) + Joins(blocks)
  {
    if blocks != [] {
      CountAcross(blocks[..|blocks| - 1]);
      JoinCount(Concat(blocks[..|blocks| - 1]), blocks[|blocks| - 1]);
    }
  }

  lemma AcrossInFront(blocks: seq<seq<byte>>, k: nat)
    requires k < |blocks| - 1
    ensures Across(blocks[..|blocks| - 1], k) == Across(blocks, k)
  {
    assert blocks[..|blocks| - 1][..k] == blocks[..k];
  }

  ghost predicate NoneAcross(blocks: seq<seq<byte>>, longest: int)
  {
    forall k: nat | k < |blocks| :: Across(blocks, k) <= longest
  }

  lemma NoneAcrossFront(blocks: seq<seq<byte>>, longest: int)
    requires blocks != []
    ensures NoneAcross(blocks, longest)
            <==> NoneAcross(blocks[..|blocks| - 1], longest) && Across(blocks, |blocks| - 1) <= longest
  {
    hide Across;
    var front := blocks[..|blocks| - 1];
    forall k: nat | k < |front| ensures Across(front, k) == Across(blocks, k) {
      AcrossInFront(blocks, k);
    }
    if NoneAcross(front, longest) && Across(blocks, |blocks| - 1) <= longest {
      forall k: nat | k < |blocks| ensures Across(blocks, k) <= longest {
        if k < |front| { assert Across(front, k) <= longest; }
      }
    }
  }

  /** For every bound at least the longest run of a block. */
  lemma {:induction false} LongestAcross(blocks: seq<seq<byte>>, longest: int)
    requires LongestOfEach(blocks) <= longest
    ensures LongestOfEach(blocks) <= Longest(Concat(blocks))
    ensures Longest(Concat(blocks)) <= longest <==> NoneAcross(blocks, longest)
  {
    if blocks != [] {
      LongestAcross(blocks[..|blocks| - 1], longest);
      NoneAcrossFront(blocks, longest);
      JoinLongest(Concat(blocks[..|blocks| - 1]), blocks[|blocks| - 1]);
    }
  }

  /** For reads of any lengths: the file has as many strings more than the
      buffered scan finds as the cuts change, and the scan never finds too long
      a run, and the longest one exactly when no run across a cut is longer
      than what it finds. */
  lemma {:induction false} ShortReads(chunks: seq<seq<byte>>, size: nat)
    requires forall j | 0 <= j < |chunks| :: |chunks[j]| <= size
    ensures var f, blocks := Padded(chunks, size), Blocks(chunks, size);
            && |StringStarts(Concat(chunks))| == |StringStarts(f)| + Joins(blocks)
            && Longest(f) <= Longest(Concat(chunks))
            && (Longest(f) == Longest(Concat(chunks)) <==> NoneAcross(blocks, Longest(f)))
  {
    var blocks := Blocks(chunks, size);
    ScansBlocks(chunks, size);
    BlocksCoverFile(chunks, size);
    CountAcross(blocks);
    LongestAcross(blocks, LongestOfEach(blocks));
    CountIsStrings(Concat(chunks));
    CountIsStrings(Padded(chunks, size));
  }

  /** Two reads of two bytes into a buffer of three: the string of four is cut. */
  lemma ShortReadExample()
    ensures var chunks: seq<seq<byte>> := [[97, 97], [97, 97]];
            && |StringStarts(Concat(chunks))| == 1 && |StringStarts(Padded(chunks, 3))| == 0
            && Longest(Concat(chunks)) == 4 && Longest(Padded(chunks, 3)) == 2
  {
    var a: seq<byte> := [97, 97];
    TwoChunks(a);
    ScanOfWhole(a);
    ScanOfWhole(a + a);
    ScansBlocks([a, a], 3);
    CountIsStrings(a + a);
    CountIsStrings(Padded([a, a], 3));
  }

  lemma TwoChunks(a: seq<byte>)
    requires |a| == 2
    ensures Concat([a, a]) == a + a
    ensures CountEach(Blocks([a, a], 3)) == 2 * Count(a)
    ensures LongestOfEach(Blocks([a, a], 3)) == Longest(a)
  {
    hide Count, Longest;
    var none: seq<seq<byte>> := [];
    assert none + [a] == [a] && [a] + [a] == [a, a];
    assert [a][..0] == none && [a, a][..1] == [a];
    LastBlock([a], 3);
    LastBlock([a, a], 3);
    OneMoreBlock(none, a);
    OneMoreBlock([a], a);
    assert Concat(none) + a == a;
  }
}
