/** The scanning and merging loops, each proved against what it is to compute. */
module StringScan {
  import opened Strings
  import opened StringMerge
  import opened Partition

  const MAXTHREAD := 16

  /** What one more byte does to each of the scan's results. */
  lemma NextByte(g: seq<byte>, k: nat)
    requires k < |g|
    ensures Tail(g[..k + 1]) == if Printable(g[k]) then Tail(g[..k]) + 1 else 0
    ensures Count(g[..k + 1]) == Count(g[..k]) + One(Tail(g[..k + 1]) == 4)
    ensures Longest(g[..k + 1]) == Max(Longest(g[..k]), Tail(g[..k + 1]))
    ensures Whole(g[..k + 1]) <==> Whole(g[..k]) && Printable(g[k])
    ensures Head(g[..k + 1]) == Head(g[..k]) + One(Whole(g[..k + 1]))
  {
    var f := g[..k + 1];
    assert f[..k] == g[..k] && f == g[..k] + [g[k]];
    HeadOfPrefix(f);
    WholeEnds(g[..k]);
  }

  /** The one-pass scan of the mapped file. */
  method MmapRegularRead(file: seq<byte>) returns (strLength: int, numStrings: int, maxLength: int)
    ensures strLength == Tail(file)
    ensures numStrings == |StringStarts(file)|
    ensures maxLength == if Longest(file) == 0 then -1 else Longest(file)
  {
    strLength, numStrings, maxLength := 0, 0, -1;
    var i := 0;
    while i < |file|
      invariant 0 <= i <= |file|
      invariant strLength == Tail(file[..i]) && numStrings == Count(file[..i])
      invariant maxLength == if Longest(file[..i]) == 0 then -1 else Longest(file[..i])
    {
      NextByte(file, i);
      if Printable(file[i]) {
        strLength := strLength + 1;
        maxLength := if maxLength < strLength then strLength else maxLength;
      } else {
        strLength := 0;
      }
      if strLength == 4 {
        numStrings := numStrings + 1;
      }
      i := i + 1;
    }
    assert file[..|file|] == file;
    CountIsStrings(file);
  }

  /** A thread's scan of the bytes byteFrom..byteTo. */
  method SumThread(file: seq<byte>, byteFrom: int, byteTo: int) returns (message: Summary)
    requires 0 <= byteFrom <= byteTo + 1 <= |file|
    ensures message == SummaryOf(file[byteFrom..byteTo + 1])
  {
    var isBeginning := true;
    var charsAtBegin, numStrings, strLength, maxLength := 0, 0, 0, 0;
    var i := byteFrom;
    ghost var g := file[byteFrom..byteTo + 1];
    while i <= byteTo
      invariant byteFrom <= i <= byteTo + 1
      invariant isBeginning <==> Whole(g[..i - byteFrom])
      invariant charsAtBegin == Head(g[..i - byteFrom])
      invariant strLength == Tail(g[..i - byteFrom])
      invariant numStrings == Count(g[..i - byteFrom])
      invariant maxLength == Longest(g[..i - byteFrom])
    {
      NextByte(g, i - byteFrom);
      var c := file[i];
      if Printable(c) {
        if isBeginning {
          charsAtBegin := charsAtBegin + 1;
        }
        strLength := strLength + 1;
        maxLength := if maxLength < strLength then strLength else maxLength;
      } else {
        isBeginning := false;
        strLength := 0;
      }
      if strLength == 4 {
        numStrings := numStrings + 1;
      }
      i := i + 1;
    }
    assert g[..|g|] == g;
    var charsAtEnd := strLength;
    message := Summary(numStrings, charsAtBegin, charsAtEnd, maxLength);
  }

  /** The merge of any messages, whatever they report. */
  function MergeAll(messages: seq<Summary>): Merge
  {
    if messages == [] then Merge(0, 0, 0, -1)
    else MergeOne(MergeAll(messages[..|messages| - 1]), messages[|messages| - 1])
  }

  /** For messages that report on the pieces of a file, it is the merge whose
      agreement with the whole file has been studied. */
  lemma {:induction false} MergesPieces(messages: seq<Summary>, pieces: seq<seq<byte>>)
    requires |messages| == |pieces| && forall j | 0 <= j < |pieces| :: messages[j] == SummaryOf(pieces[j])
    ensures MergeAll(messages) == Merged(pieces)
  {
    if pieces != [] {
      MergesPieces(messages[..|messages| - 1], pieces[..|pieces| - 1]);
    }
  }

  /** The parent's loop over the threads' messages, with its two arrays. */
  method MergeMessages(numberOfThreads: nat, messages: seq<Summary>) returns (numStrings: int, maxLength: int)
    requires 1 <= numberOfThreads <= MAXTHREAD && |messages| == numberOfThreads
    ensures numStrings == MergeAll(messages).strings && maxLength == MergeAll(messages).maxLength
  {
    numStrings, maxLength := 0, -1;
    var maxLengthEnd := new int[17](i => 0);
    var maxStringLength := new int[17](i => 0);
    var previousEnd := 0;
    var i := 1;
    while i <= numberOfThreads
      invariant 1 <= i <= numberOfThreads + 1
      invariant MergeAll(messages[..i - 1]) == Merge(maxLengthEnd[i - 1], previousEnd, numStrings, maxLength)
    {
      var message := messages[i - 1];
      assert messages[..i][..i - 1] == messages[..i - 1];
      var numberOfStrings := message.strings;
      var charsAtBegin := message.charsAtBegin;
      var charsAtEnd := message.charsAtEnd;
      var maxLengthProv := message.maxLength;
      numStrings := numStrings + numberOfStrings;
      if numberOfStrings <= 1 && charsAtBegin == charsAtEnd && charsAtBegin != 0 {
        maxLengthEnd[i] := maxLengthEnd[i - 1] + charsAtBegin;
        maxStringLength[i] := maxLengthEnd[i];
        maxLength := if maxStringLength[i] > maxLength then maxStringLength[i] else maxLength;
        if previousEnd >= 4 {
          numStrings := numStrings - 1;
        }
        previousEnd := charsAtEnd;
      } else {
        maxLengthEnd[i] := charsAtEnd;
        var mergedLength := maxLengthEnd[i - 1] + charsAtBegin;
        maxStringLength[i] := if mergedLength > maxLengthProv then mergedLength else maxLengthProv;
        maxLength := if maxStringLength[i] > maxLength then maxStringLength[i] else maxLength;
        if previousEnd + charsAtBegin >= 4 && charsAtBegin < 4 && previousEnd < 4 {
          numStrings := numStrings + 1;
        } else if previousEnd >= 4 && charsAtBegin >= 4 {
          numStrings := numStrings - 1;
        }
        previousEnd := charsAtEnd;
      }
      i := i + 1;
    }
    assert messages[..numberOfThreads] == messages;
  }

  // ----- reading through a buffer

  /** The bytes scanned: each read is followed by the zeros left in the buffer. */
  function Padded(chunks: seq<seq<byte>>, size: nat): seq<byte>
    requires forall j | 0 <= j < |chunks| :: |chunks[j]| <= size
  {
    if chunks == [] then []
    else
      var last := chunks[|chunks| - 1];
      Padded(chunks[..|chunks| - 1], size) + last + Zeros(size - |last|)
  }

  function Zeros(k: nat): seq<byte>
  {
    seq(k, i => 0 as byte)
  }

  /** The buffered scan of a file whose reads return the given chunks, for every
      buffer size: it scans the padded chunks as if they were one file. */
  method RegularRead(chunks: seq<seq<byte>>, bufSize: nat)
    returns (strLength: int, numStrings: int, maxLength: int)
    requires 1 <= bufSize && forall j | 0 <= j < |chunks| :: 1 <= |chunks[j]| <= bufSize
    ensures var f := Padded(chunks, bufSize);
            strLength == Tail(f) && numStrings == |StringStarts(f)|
            && maxLength == if Longest(f) == 0 then -1 else Longest(f)
  {
    strLength, numStrings, maxLength := 0, 0, -1;
    var buf := new byte[bufSize](i => 0 as byte);
    var r := 0;
    while r < |chunks|
      invariant 0 <= r <= |chunks| && buf[..] == Zeros(bufSize)
      invariant var f := Padded(chunks[..r], bufSize);
                strLength == Tail(f) && numStrings == Count(f)
                && maxLength == if Longest(f) == 0 then -1 else Longest(f)
    {
      ghost var f := Padded(chunks[..r], bufSize);
      FillBuffer(buf, chunks[r]);
      strLength, numStrings, maxLength := ScanBuffer(buf, f, strLength, numStrings, maxLength);
      PaddedStep(chunks, r, bufSize);
      ClearBuffer(buf);
      r := r + 1;
    }
    assert chunks[..|chunks|] == chunks;
    CountIsStrings(Padded(chunks, bufSize));
  }

  lemma PaddedStep(chunks: seq<seq<byte>>, r: nat, size: nat)
    requires r < |chunks| && forall j | 0 <= j < |chunks| :: |chunks[j]| <= size
    ensures Padded(chunks[..r + 1], size) == Padded(chunks[..r], size) + (chunks[r] + Zeros(size - |chunks[r]|))
  {
    assert chunks[..r + 1][..r] == chunks[..r];
  }

  /** read: the bytes go to the front of a zeroed buffer. */
  method FillBuffer(buf: array<byte>, chunk: seq<byte>)
    requires |chunk| <= buf.Length && buf[..] == Zeros(buf.Length)
    modifies buf
    ensures buf[..] == chunk + Zeros(buf.Length - |chunk|)
  {
    var i := 0;
    while i < |chunk|
      invariant 0 <= i <= |chunk|
      invariant forall k | 0 <= k < i :: buf[k] == chunk[k]
      invariant forall k | i <= k < buf.Length :: buf[k] == 0
    {
      buf[i] := chunk[i];
      i := i + 1;
    }
  }

  method ClearBuffer(buf: array<byte>)
    modifies buf
    ensures buf[..] == Zeros(buf.Length)
  {
    var i := 0;
    while i < buf.Length
      invariant 0 <= i <= buf.Length
      invariant forall k | 0 <= k < i :: buf[k] == 0
    {
      buf[i] := 0;
      i := i + 1;
    }
  }

  /** The inner loop: str_length is carried from one buffer to the next. */
  method ScanBuffer(buf: array<byte>, ghost f: seq<byte>, str: int, num: int, max: int)
    returns (strLength: int, numStrings: int, maxLength: int)
    requires str == Tail(f) && num == Count(f) && max == if Longest(f) == 0 then -1 else Longest(f)
    ensures var g := f + buf[..];
            strLength == Tail(g) && numStrings == Count(g)
            && maxLength == if Longest(g) == 0 then -1 else Longest(g)
  {
    strLength, numStrings, maxLength := str, num, max;
    assert f + buf[..0] == f;
    var i := 0;
    while i < buf.Length
      invariant 0 <= i <= buf.Length
      invariant var g := f + buf[..i];
                strLength == Tail(g) && numStrings == Count(g)
                && maxLength == if Longest(g) == 0 then -1 else Longest(g)
    {
      assert (f + buf[..i + 1])[..|f| + i] == f + buf[..i];
      if Printable(buf[i]) {
        strLength := strLength + 1;
        maxLength := if maxLength < strLength then strLength else maxLength;
      } else {
        strLength := 0;
      }
      if strLength == 4 {
        numStrings := numStrings + 1;
      }
      i := i + 1;
    }
    assert buf[..buf.Length] == buf[..];
  }

  lemma OneZero(f: seq<byte>)
    ensures Count(f + [0]) == Count(f) && Longest(f + [0]) == Longest(f) && Tail(f + [0]) == 0
  {
    assert (f + [0])[..|f|] == f;
  }

  lemma NoZeros(f: seq<byte>)
    ensures f + Zeros(0) == f
  {
  }

  lemma MoreZeros(k: nat)
    ensures Zeros(k + 1) == Zeros(k) + [0]
  {
  }

  lemma {:induction false} ZerosAddNothing(f: seq<byte>, k: nat)
    ensures Count(f + Zeros(k)) == Count(f) && Longest(f + Zeros(k)) == Longest(f)
    ensures Tail(f + Zeros(k)) == if k == 0 then Tail(f) else 0
  {
    hide Count, Longest, Tail, Zeros;
    if k == 0 {
      NoZeros(f);
    } else {
      ZerosAddNothing(f, k - 1);
      MoreZeros(k - 1);
      OneZero(f + Zeros(k - 1));
      Regroup(f, Zeros(k - 1), [0]);
    }
  }

  lemma {:induction false} FullReads(chunks: seq<seq<byte>>, size: nat)
    requires forall j | 0 <= j < |chunks| :: |chunks[j]| == size
    ensures Padded(chunks, size) == Concat(chunks)
  {
    if chunks != [] {
      FullReads(chunks[..|chunks| - 1], size);
      assert Zeros(0) == [];
    }
  }

  /** When only the last read is short, the buffered scan finds the strings and
      the longest run of the file, whatever the size of the buffer. */
  lemma BufferedScanAgrees(chunks: seq<seq<byte>>, size: nat)
    requires forall j | 0 <= j < |chunks| :: |chunks[j]| <= size
    requires forall j | 0 <= j < |chunks| - 1 :: |chunks[j]| == size
    ensures |StringStarts(Padded(chunks, size))| == |StringStarts(Concat(chunks))|
    ensures Longest(Padded(chunks, size)) == Longest(Concat(chunks))
  {
    CountIsStrings(Padded(chunks, size));
    CountIsStrings(Concat(chunks));
    if chunks != [] {
      FullReads(chunks[..|chunks| - 1], size);
      ZerosAddNothing(Concat(chunks), size - |chunks[|chunks| - 1]|);
    }
  }

  // ----- files on which the threads' answer is wrong

  /** Two threads: a string of five bytes is lost at a false whole. */
  lemma CountExample()
    ensures var file: seq<byte> := [97, 97, 97, 97, 97, 0, 0, 97];
            |StringStarts(file)| == 1 && Merged(Pieces(file, 2, 2)).strings == 0
  {
    hide Count, Head, Longest, StringStarts, Tail;
    var a: seq<byte>, b: seq<byte> := [97, 97, 97, 97], [97, 0, 0, 97];
    var file := a + b;
    assert file == [97, 97, 97, 97, 97, 0, 0, 97];
    ScanOfWhole(a);
    MidZeros(b);
    Join(a, b);
    CountIsStrings(file);
    var p := Pieces(file, 2, 2);
    assert p[..1] == [a] && p[1] == b && p[..1][..0] == [];
    assert Merged(p[..1]) == MergeOne(Merged([]), SummaryOf(a));
  }

  lemma MidZeros(b: seq<byte>)
    requires b == [97, 0, 0, 97]
    ensures SummaryOf(b) == Summary(0, 1, 1, 1) && !Whole(b)
  {
    NextByte(b, 0);
    NextByte(b, 1);
    NextByte(b, 2);
    NextByte(b, 3);
    assert b[..4] == b && b[1] in b;
  }

  lemma MergedThree(a: seq<byte>, b: seq<byte>, c: seq<byte>)
    ensures Merged([a, b, c]) == MergeOne(MergeOne(MergeOne(Merge(0, 0, 0, -1), SummaryOf(a)), SummaryOf(b)), SummaryOf(c))
  {
    assert [a, b, c][..2] == [a, b] && [a, b][..1] == [a] && [a][..0] == [];
    assert Merged([a]) == MergeOne(Merged([]), SummaryOf(a));
    assert Merged([a, b]) == MergeOne(Merged([a]), SummaryOf(b));
  }

  lemma ThreePieces(file: seq<byte>, a: seq<byte>, b: seq<byte>, c: seq<byte>)
    requires |file| == 12 && file[0..4] == a && file[4..8] == b && file[8..12] == c
    ensures Pieces(file, 3, 3) == [a, b, c]
  {
    ThreeParts(|file|);
    var p := Pieces(file, 3, 3);
    assert p[0] == a;
    assert p[1] == b;
    assert p[2] == c;
  }

  lemma ThreeParts(total: nat)
    requires total == 12
    ensures Lo(total, 3, 1) == 0 && Hi(total, 3, 1) == 3
    ensures Lo(total, 3, 2) == 4 && Hi(total, 3, 2) == 7
    ensures Lo(total, 3, 3) == 8 && Hi(total, 3, 3) == 11
  {
  }

  /** Three threads: two runs of five bytes are taken for one of nine. */
  lemma MaximumExample()
    ensures var file: seq<byte> := [97, 97, 97, 97] + [97, 0, 0, 97] + [97, 97, 97, 97];
            Longest(file) == 5 && Merged(Pieces(file, 3, 3)).maxLength == 9
  {
    hide Count, Head, Longest, Tail;
    var a: seq<byte>, b: seq<byte> := [97, 97, 97, 97], [97, 0, 0, 97];
    ScanOfWhole(a);
    MidZeros(b);
    Join(a, b);
    Join(a + b, a);
    MergedThree(a, b, a);
    var file := a + b + a;
    assert file[0..4] == a && file[4..8] == b && file[8..12] == a;
    ThreePieces(file, a, b, a);
  }

  /** One thread: the file is a false whole, and its run of six is taken for one
      of one byte. */
  lemma TooShortExample()
    ensures var file: seq<byte> := [97, 0] + [97, 97, 97, 97, 97, 97] + [0, 97];
            Longest(file) == 6 && Merged(Pieces(file, 1, 1)).maxLength == 1
  {
    var a: seq<byte>, b: seq<byte>, c: seq<byte> := [97, 0], [97, 97, 97, 97, 97, 97], [0, 97];
    var file := a + b + c;
    TwoBytes(a);
    TwoBytes(c);
    ScanOfWhole(b);
    Join(a, b);
    Join(a + b, c);
    assert file[0] == 97 && file[1] == 0;
    HeadOne(file);
    OnePiece(file);
    assert [file][..0] == [];
    assert Merged([file]) == MergeOne(Merged([]), SummaryOf(file));
  }

  lemma TwoBytes(g: seq<byte>)
    requires |g| == 2
    ensures Longest(g) == Max(One(Printable(g[0])), Tail(g)) && Count(g) == 0
    ensures Tail(g) == if !Printable(g[1]) then 0 else 1 + One(Printable(g[0]))
    ensures Head(g) == if !Printable(g[0]) then 0 else 1 + One(Printable(g[1]))
    ensures Whole(g) <==> Printable(g[0]) && Printable(g[1])
  {
    NextByte(g, 0);
    NextByte(g, 1);
    assert g[..2] == g;
  }

  lemma OnePiece(file: seq<byte>)
    ensures Pieces(file, 1, 1) == [file]
  {
    var p := Pieces(file, 1, 1);
    assert p[0] == Piece(file, 1, 1);
    assert Lo(|file|, 1, 1) == 0 && Hi(|file|, 1, 1) == |file| - 1;
    assert file[0..|file|] == file;
    assert p == [file];
  }

  lemma HeadOne(g: seq<byte>)
    requires 2 <= |g| && Printable(g[0]) && !Printable(g[1])
    ensures Head(g) == 1
  {
    assert Head(g[1..]) == 0;
  }
}
