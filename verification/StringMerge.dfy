/** The left-to-right merge of the threads' summaries, and exactly when it
    agrees with scanning the whole file. */
module StringMerge {
  import opened Strings
  import opened Partition

  /** What a thread reports about its part of the file. */
  datatype Summary = Summary(strings: int, charsAtBegin: int, charsAtEnd: int, maxLength: int)

  function SummaryOf(g: seq<byte>): Summary
  {
    Summary(Count(g), Head(g), Tail(g), Longest(g))
  }

  /** The merge loop's variables: maxLengthEnd of the last part, previous_end,
      num_strings and max_length. */
  datatype Merge = Merge(lengthEnd: int, previousEnd: int, strings: int, maxLength: int)

  /** The guard of the branch for a part that is one piece of a longer run. */
  predicate LooksWhole(s: Summary)
  {
    s.strings <= 1 && s.charsAtBegin == s.charsAtEnd && s.charsAtBegin != 0
  }

  function MergeOne(m: Merge, s: Summary): Merge
  {
    if LooksWhole(s) then
      var length := m.lengthEnd + s.charsAtBegin;
      Merge(length, s.charsAtEnd,
            m.strings + s.strings - (if m.previousEnd >= 4 then 1 else 0),
            Max(m.maxLength, length))
    else
      var change := if m.previousEnd + s.charsAtBegin >= 4 && s.charsAtBegin < 4 && m.previousEnd < 4 then 1
                    else if m.previousEnd >= 4 && s.charsAtBegin >= 4 then -1 else 0;
      Merge(s.charsAtEnd, s.charsAtEnd,
            m.strings + s.strings + change,
            Max(m.maxLength, Max(s.maxLength, m.lengthEnd + s.charsAtBegin)))
  }

  /** The merge of the summaries, from the values the program starts with. */
  function Merged(pieces: seq<seq<byte>>): Merge
  {
    if pieces == [] then Merge(0, 0, 0, -1)
    else MergeOne(Merged(pieces[..|pieces| - 1]), SummaryOf(pieces[|pieces| - 1]))
  }

  /** A part that takes the branch for whole parts but has an unprintable byte. */
  predicate FalseWhole(g: seq<byte>)
  {
    LooksWhole(SummaryOf(g)) && !Whole(g)
  }

  /** That happens only with one to three printable bytes at either end. */
  lemma FalseWholeIsShort(g: seq<byte>)
    requires FalseWhole(g)
    ensures 1 <= Head(g) == Tail(g) <= 3
  {
    EndsCounted(g);
  }

  /** Every part that is all printable, and not empty, does take the branch. */
  lemma WholeLooksWhole(g: seq<byte>)
    requires Whole(g)
    ensures LooksWhole(SummaryOf(g)) <==> g != []
  {
    ScanOfWhole(g);
  }

  /** Empty parts can only come first. */
  ghost predicate EmptyFirst(pieces: seq<seq<byte>>)
  {
    forall j | 0 <= j < |pieces| && pieces[j] == [] :: Concat(pieces[..j]) == []
  }

  lemma EmptyFirstPrefix(pieces: seq<seq<byte>>)
    requires EmptyFirst(pieces) && pieces != []
    ensures EmptyFirst(pieces[..|pieces| - 1])
    ensures pieces[|pieces| - 1] == [] ==> Concat(pieces[..|pieces| - 1]) == []
  {
    var front := pieces[..|pieces| - 1];
    forall j | 0 <= j < |front| && front[j] == [] ensures Concat(front[..j]) == [] {
      assert front[..j] == pieces[..j];
    }
  }

  // ----- the count

  /** The last part's suffix, all that previous_end knows of the current run. */
  function LastTail(pieces: seq<seq<byte>>): nat
  {
    if pieces == [] then 0 else Tail(pieces[|pieces| - 1])
  }

  /** The merge loses a string at part g: the run that reaches from the parts
      before into g has at least four bytes, and either g is a false whole, or g
      ends the run and the last two pieces of it fall short of four. */
  predicate LosesString(before: seq<seq<byte>>, g: seq<byte>)
  {
    Tail(Concat(before)) + Head(g) >= 4
    && (FalseWhole(g) || (!LooksWhole(SummaryOf(g)) && LastTail(before) + Head(g) < 4))
  }

  function LostStrings(pieces: seq<seq<byte>>): nat
  {
    if pieces == [] then 0
    else
      var before := pieces[..|pieces| - 1];
      LostStrings(before) + (if LosesString(before, pieces[|pieces| - 1]) then 1 else 0)
  }

  /** A run of at least four bytes is under way of which the merge has only
      seen a last piece of fewer than four. */
  predicate Pending(pieces: seq<seq<byte>>)
  {
    Tail(Concat(pieces)) >= 4 && LastTail(pieces) < 4
  }

  lemma LastTailBound(pieces: seq<seq<byte>>)
    ensures LastTail(pieces) <= Tail(Concat(pieces))
  {
    if pieces != [] {
      var g := pieces[|pieces| - 1];
      JoinTail(Concat(pieces[..|pieces| - 1]), g);
      WholeEnds(g);
    }
  }

  /** The exact relation, for every file cut in any way with empty parts first. */
  lemma {:induction false} MergedCount(pieces: seq<seq<byte>>)
    requires EmptyFirst(pieces)
    ensures Merged(pieces).strings + LostStrings(pieces) + One(Pending(pieces)) == Count(Concat(pieces))
    ensures Merged(pieces).previousEnd == LastTail(pieces)
  {
    hide Count, Head, Longest, Tail, Whole;
    if pieces == [] {
      ScanOfWhole([]);
    } else {
      var before, g := pieces[..|pieces| - 1], pieces[|pieces| - 1];
      EmptyFirstPrefix(pieces);
      MergedCount(before);
      LastTailBound(before);
      Join(Concat(before), g);
      if Whole(g) {
        WholeLooksWhole(g);
        ScanOfWhole(g);
      } else if FalseWhole(g) {
        FalseWholeIsShort(g);
      }
    }
  }

  predicate LosesAt(pieces: seq<seq<byte>>, j: nat)
    requires j < |pieces|
  {
    LosesString(pieces[..j], pieces[j])
  }

  /** So the merged count is the sequential count exactly when no string is lost
      on the way and none is pending at the end. */
  lemma {:induction false} CountsAgreeIff(pieces: seq<seq<byte>>)
    requires EmptyFirst(pieces)
    ensures Merged(pieces).strings <= Count(Concat(pieces))
    ensures Merged(pieces).strings == Count(Concat(pieces)) <==>
              !Pending(pieces) && forall j | 0 <= j < |pieces| :: !LosesAt(pieces, j)
  {
    MergedCount(pieces);
    NoneLost(pieces);
  }

  lemma LosesInFront(pieces: seq<seq<byte>>, j: nat)
    requires j < |pieces| - 1
    ensures LosesAt(pieces[..|pieces| - 1], j) == LosesAt(pieces, j)
  {
    assert pieces[..|pieces| - 1][..j] == pieces[..j];
  }

  lemma LostLast(pieces: seq<seq<byte>>)
    requires pieces != []
    ensures LostStrings(pieces) == LostStrings(pieces[..|pieces| - 1]) + One(LosesAt(pieces, |pieces| - 1))
  {
  }

  lemma {:induction false} NoneLost(pieces: seq<seq<byte>>)
    ensures LostStrings(pieces) == 0 <==> forall j | 0 <= j < |pieces| :: !LosesAt(pieces, j)
  {
    if pieces != [] {
      var before := pieces[..|pieces| - 1];
      NoneLost(before);
      LostLast(pieces);
      forall j: nat | j < |before| ensures LosesAt(before, j) == LosesAt(pieces, j) {
        LosesInFront(pieces, j);
      }
    }
  }

  /** With parts of at least four bytes previous_end is as good as the length of
      the run under way: both at least four, or equal. */
  lemma LongPartsTellAll(pieces: seq<seq<byte>>)
    requires forall j | 0 <= j < |pieces| :: 4 <= |pieces[j]|
    ensures LastTail(pieces) >= 4 <==> Tail(Concat(pieces)) >= 4
    ensures LastTail(pieces) < 4 ==> LastTail(pieces) == Tail(Concat(pieces))
  {
    if pieces != [] {
      var g := pieces[|pieces| - 1];
      JoinTail(Concat(pieces[..|pieces| - 1]), g);
      WholeEnds(g);
    }
  }

  /** Then only false wholes lose strings, each the run that reaches into it. */
  lemma LongPartsAgreeIff(pieces: seq<seq<byte>>)
    requires forall j | 0 <= j < |pieces| :: 4 <= |pieces[j]|
    ensures Merged(pieces).strings == Count(Concat(pieces)) <==>
              forall j | 0 <= j < |pieces| ::
                !(FalseWhole(pieces[j]) && Tail(Concat(pieces[..j])) + Head(pieces[j]) >= 4)
  {
    CountsAgreeIff(pieces);
    LongPartsTellAll(pieces);
    forall j | 0 <= j < |pieces|
      ensures LosesAt(pieces, j) <==>
                FalseWhole(pieces[j]) && Tail(Concat(pieces[..j])) + Head(pieces[j]) >= 4
    {
      LongPartsTellAll(pieces[..j]);
    }
  }

  // ----- the parts of a file

  function Piece(file: seq<byte>, n: nat, i: int): seq<byte>
    requires 1 <= i <= n
  {
    PartsTouch(|file|, n, i);
    file[Lo(|file|, n, i)..Hi(|file|, n, i) + 1]
  }

  /** What the first k threads are given. */
  function Pieces(file: seq<byte>, n: nat, k: nat): (p: seq<seq<byte>>)
    requires k <= n
    ensures |p| == k && forall j | 0 <= j < k :: p[j] == Piece(file, n, j + 1)
  {
    seq(k, j requires 0 <= j < k => Piece(file, n, j + 1))
  }

  lemma {:induction false} PiecesCoverFile(file: seq<byte>, n: nat, k: nat)
    requires 1 <= k <= n
    ensures Hi(|file|, n, k) + 1 <= |file| && Concat(Pieces(file, n, k)) == file[..Hi(|file|, n, k) + 1]
  {
    PartsTouch(|file|, n, k);
    var p := Pieces(file, n, k);
    assert p[..k - 1] == Pieces(file, n, k - 1);
    assert Concat(p) == Concat(p[..k - 1]) + Piece(file, n, k);
    if k > 1 {
      PiecesCoverFile(file, n, k - 1);
      PartsTouch(|file|, n, k - 1);
      var a, b := Lo(|file|, n, k), Hi(|file|, n, k) + 1;
      assert file[..a] + file[a..b] == file[..b];
    }
  }

  lemma PiecesEmptyFirst(file: seq<byte>, n: nat)
    requires 1 <= n
    ensures EmptyFirst(Pieces(file, n, n)) && Concat(Pieces(file, n, n)) == file
  {
    var p := Pieces(file, n, n);
    PiecesCoverFile(file, n, n);
    PartsTouch(|file|, n, n);
    forall j | 0 <= j < n && p[j] == [] ensures Concat(p[..j]) == [] {
      PartEmptyIff(|file|, n, j + 1);
      PartsTouch(|file|, n, j + 1);
      assert p[..j] == Pieces(file, n, j);
      if j > 0 {
        PiecesCoverFile(file, n, j);
        PartEmptyIff(|file|, n, j);
        PartsTouch(|file|, n, j);
        EarlierPartsEmpty(|file|, n, j);
      }
    }
  }

  /** When there are fewer bytes than threads, all but the last part are empty. */
  lemma EarlierPartsEmpty(total: nat, n: nat, i: int)
    requires 1 <= i < n && (total < n || total == 0)
    ensures Hi(total, n, i) == -1
  {
    assert total / n == 0;
  }

  lemma LongParts(file: seq<byte>, n: nat)
    requires 1 <= n && 4 <= |file| / n
    ensures forall j | 0 <= j < n :: 4 <= |Pieces(file, n, n)[j]|
  {
    forall j | 0 <= j < n ensures 4 <= |Pieces(file, n, n)[j]| {
      PartsTouch(|file|, n, j + 1);
      QuotientFits(|file|, n);
      var q := |file| / n;
      assert (j + 1) * q == j * q + q;
      assert n * q == (n - 1) * q + q;
    }
  }

  /** The threads' count of the strings of a file is never too high, and is right
      exactly when no part loses a string and none is pending. */
  lemma {:induction false} ThreadedCountIff(file: seq<byte>, n: nat)
    requires 1 <= n
    ensures var p := Pieces(file, n, n);
            Merged(p).strings <= |StringStarts(file)|
            && (Merged(p).strings == |StringStarts(file)| <==>
                  !Pending(p) && forall j | 0 <= j < n :: !LosesAt(p, j))
  {
    PiecesEmptyFirst(file, n);
    CountsAgreeIff(Pieces(file, n, n));
    CountIsStrings(file);
  }

  /** With at least four bytes for each thread it is right exactly when no run of
      four or more reaches into a false whole from the left. */
  lemma {:induction false} ThreadedCountLongIff(file: seq<byte>, n: nat)
    requires 1 <= n && 4 <= |file| / n
    ensures var p := Pieces(file, n, n);
            Merged(p).strings == |StringStarts(file)| <==>
              forall j | 0 <= j < n :: !(FalseWhole(p[j]) && Tail(Concat(p[..j])) + Head(p[j]) >= 4)
  {
    PiecesEmptyFirst(file, n);
    LongParts(file, n);
    LongPartsAgreeIff(Pieces(file, n, n));
    CountIsStrings(file);
  }
}
