/** The threaded string scan as a run of the collecting protocol. */
module StringThreads {
  import opened CollectProtocol
  import opened CollectTheorems
  import opened Partition
  import opened Strings
  import opened StringMaximum
  import opened StringMerge
  import opened StringScan

  /** Each thread is given its part of the bytes and reports on it. */
  function Program(file: seq<byte>, n: nat): Config<Summary>
    requires 1 <= n
  {
    Config(n, false, i => (Lo(|file|, n, i), Hi(|file|, n, i)),
           (lo, hi) => if 0 <= lo <= hi + 1 <= |file| then SummaryOf(file[lo..hi + 1]) else SummaryOf([]))
  }

  /** For every interleaving the messages the parent merges are the summaries of
      the file's parts, in the order of the parts. */
  lemma MergesThePieces(file: seq<byte>, n: nat, s: State<Summary>)
    requires 1 <= n && Reachable(Program(file, n), s) && s.pc.Finished?
    ensures |s.collected| == n
    ensures forall k | 0 <= k < n :: s.collected[k] == SummaryOf(Piece(file, n, k + 1))
  {
    var c := Program(file, n);
    OwnBoxesInOrder(c, s);
    forall k | 0 <= k < n ensures s.collected[k] == SummaryOf(Piece(file, n, k + 1)) {
      PartsTouch(|file|, n, k + 1);
      assert s.collected[k] == Answer(c, k + 1);
    }
  }

  /** Hence, whatever the interleaving, the threads' maximum is the longest run
      of the file exactly when the parts offer it and nothing longer. With at
      least four bytes each their number of strings is right exactly when no run
      of four or more reaches into a false whole from the left. Without a false
      whole both are right. */
  lemma {:induction false} ThreadsAgreeWithScan(file: seq<byte>, n: nat, s: State<Summary>)
    requires 1 <= n && Reachable(Program(file, n), s) && s.pc.Finished?
    ensures var p, m := Pieces(file, n, n), MergeAll(s.collected);
            && (m.maxLength == Longest(file) <==> Finds(Offers(p), Longest(file)))
            && (m.maxLength > Longest(file) <==> TooLong(Offers(p), Longest(file)))
            && (m.maxLength < Longest(file) <==> TooShort(Offers(p), Longest(file)))
            && ((forall j | 0 <= j < n :: !FalseWhole(p[j])) ==> m.maxLength == Longest(file))
            && (4 <= |file| / n ==>
                  (m.strings == |StringStarts(file)| <==>
                     forall j | 0 <= j < n :: !(FalseWhole(p[j]) && Tail(Concat(p[..j])) + Head(p[j]) >= 4)))
  {
    MergesThePieces(file, n, s);
    MergesPieces(s.collected, Pieces(file, n, n));
    ThreadedMaximum(file, n);
    if 4 <= |file| / n {
      ThreadedCountLongIff(file, n);
    }
  }
}
