/** The merged maximum, and exactly when it is the longest run of the file. */
module StringMaximum {
  import opened Strings
  import opened StringMerge

  // ----- the file as the merge takes it

  /** A false whole part as the merge takes it: all printable. */
  function Taken(g: seq<byte>): seq<byte>
  {
    if FalseWhole(g) then seq(Head(g), i => 32 as byte) else g
  }

  function TakenAll(pieces: seq<seq<byte>>): seq<seq<byte>>
  {
    seq(|pieces|, i requires 0 <= i < |pieces| => Taken(pieces[i]))
  }

  lemma TakenScan(g: seq<byte>)
    ensures LooksWhole(SummaryOf(g)) ==> Whole(Taken(g)) && |Taken(g)| == Head(g)
    ensures !LooksWhole(SummaryOf(g)) ==> Taken(g) == g
  {
    if Whole(g) {
      WholeLooksWhole(g);
      ScanOfWhole(g);
    }
  }

  /** One step of it: f is what the merge has taken so far. */
  lemma MergeOneMaximum(m: Merge, f: seq<byte>, g: seq<byte>)
    requires m.lengthEnd == Tail(f) && (m.maxLength == Longest(f) || (m.maxLength == -1 && f == []))
    requires g == [] ==> f == []
    ensures MergeOne(m, SummaryOf(g)).lengthEnd == Tail(f + Taken(g))
    ensures MergeOne(m, SummaryOf(g)).maxLength == Longest(f + Taken(g))
  {
    var t := Taken(g);
    JoinTail(f, t);
    JoinLongest(f, t);
    TakenScan(g);
    if LooksWhole(SummaryOf(g)) {
      ScanOfWhole(t);
    } else {
      NotTakenWhole(g);
    }
  }

  lemma NotTakenWhole(g: seq<byte>)
    requires !LooksWhole(SummaryOf(g))
    ensures Whole(g) ==> g == []
  {
    if Whole(g) { WholeLooksWhole(g); }
  }

  /** The merged maximum is the longest run of the file as the merge takes it,
      for every file cut in any way with empty parts first. */
  lemma {:induction false} MergedMaximum(pieces: seq<seq<byte>>)
    requires EmptyFirst(pieces)
    ensures Merged(pieces).lengthEnd == Tail(Concat(TakenAll(pieces)))
    ensures if pieces == [] then Merged(pieces).maxLength == -1
            else Merged(pieces).maxLength == Longest(Concat(TakenAll(pieces)))
  {
    if pieces != [] {
      var before, g := pieces[..|pieces| - 1], pieces[|pieces| - 1];
      EmptyFirstPrefix(pieces);
      MergedMaximum(before);
      assert TakenAll(pieces)[..|pieces| - 1] == TakenAll(before);
      if g == [] { NothingTaken(before); }
      MergeOneMaximum(Merged(before), Concat(TakenAll(before)), g);
    }
  }

  lemma {:induction false} NothingTaken(pieces: seq<seq<byte>>)
    requires Concat(pieces) == []
    ensures Concat(TakenAll(pieces)) == []
  {
    if pieces != [] {
      var before := pieces[..|pieces| - 1];
      NothingTaken(before);
      assert TakenAll(pieces)[..|pieces| - 1] == TakenAll(before);
    }
  }

  // ----- part by part

  /** What a part offers for the maximum: the run that ends with its prefix, as
      the merge takes it, and the longest run inside it, which stays hidden from
      the merge if the part is a false whole. */
  datatype Offer = Offer(glued: nat, longest: nat, hidden: bool)
  {
    function Value(): int
    {
      if hidden then glued else Max(longest, glued)
    }
  }

  function OfferAt(pieces: seq<seq<byte>>, j: nat): Offer
    requires j < |pieces|
  {
    Offer(Tail(Concat(TakenAll(pieces[..j]))) + Head(pieces[j]), Longest(pieces[j]), FalseWhole(pieces[j]))
  }

  function Offers(pieces: seq<seq<byte>>): (o: seq<Offer>)
    ensures |o| == |pieces| && forall j: nat | j < |o| :: o[j] == OfferAt(pieces, j)
  {
    seq(|pieces|, j requires 0 <= j < |pieces| => OfferAt(pieces, j))
  }

  lemma OffersInFront(pieces: seq<seq<byte>>)
    requires pieces != []
    ensures Offers(pieces) == Offers(pieces[..|pieces| - 1]) + [OfferAt(pieces, |pieces| - 1)]
  {
    forall j: nat | j < |pieces| - 1 ensures Offers(pieces)[j] == Offers(pieces[..|pieces| - 1])[j] {
      assert pieces[..|pieces| - 1][..j] == pieces[..j];
    }
  }

  function Best(o: seq<Offer>): int
  {
    if o == [] then -1 else Max(Best(o[..|o| - 1]), o[|o| - 1].Value())
  }

  lemma MergeOneOffer(m: Merge, g: seq<byte>, glued: nat)
    requires 0 <= m.lengthEnd && glued == m.lengthEnd + Head(g)
    ensures MergeOne(m, SummaryOf(g)).maxLength == Max(m.maxLength, Offer(glued, Longest(g), FalseWhole(g)).Value())
  {
    if Whole(g) {
      WholeLooksWhole(g);
      ScanOfWhole(g);
    }
  }

  lemma BestOfMore(o: seq<Offer>, last: Offer)
    ensures Best(o + [last]) == Max(Best(o), last.Value())
  {
    assert (o + [last])[..|o|] == o;
  }

  lemma MergedStep(pieces: seq<seq<byte>>, m: Merge, g: seq<byte>)
    requires pieces != [] && m == Merged(pieces[..|pieces| - 1]) && g == pieces[|pieces| - 1]
    ensures Merged(pieces) == MergeOne(m, SummaryOf(g))
  {
  }

  lemma GluedToLast(pieces: seq<seq<byte>>)
    requires EmptyFirst(pieces) && pieces != []
    ensures 0 <= Merged(pieces[..|pieces| - 1]).lengthEnd
    ensures OfferAt(pieces, |pieces| - 1).glued == Merged(pieces[..|pieces| - 1]).lengthEnd + Head(pieces[|pieces| - 1])
  {
    EmptyFirstPrefix(pieces);
    MergedMaximum(pieces[..|pieces| - 1]);
  }

  lemma LastOffer(pieces: seq<seq<byte>>, m: Merge, o: Offer)
    requires EmptyFirst(pieces) && pieces != []
    requires m == Merged(pieces[..|pieces| - 1]) && o == OfferAt(pieces, |pieces| - 1)
    ensures Merged(pieces).maxLength == Max(m.maxLength, o.Value())
  {
    GluedToLast(pieces);
    MergedStep(pieces, m, pieces[|pieces| - 1]);
    MergeOneOffer(m, pieces[|pieces| - 1], o.glued);
  }

  /** The merged maximum is the best offer. */
  lemma {:induction false} MergedIsBest(pieces: seq<seq<byte>>)
    requires EmptyFirst(pieces)
    ensures Merged(pieces).maxLength == Best(Offers(pieces))
  {
    if pieces != [] {
      var before := pieces[..|pieces| - 1];
      EmptyFirstPrefix(pieces);
      MergedIsBest(before);
      LastOffer(pieces, Merged(before), OfferAt(pieces, |pieces| - 1));
      OffersInFront(pieces);
      BestOfMore(Offers(before), OfferAt(pieces, |pieces| - 1));
    }
  }

  /** False wholes only lengthen the run under way. */
  lemma {:induction false} TakenTail(pieces: seq<seq<byte>>)
    ensures Tail(Concat(pieces)) <= Tail(Concat(TakenAll(pieces)))
  {
    if pieces != [] {
      var before, g := pieces[..|pieces| - 1], pieces[|pieces| - 1];
      TakenTail(before);
      assert TakenAll(pieces)[..|pieces| - 1] == TakenAll(before);
      JoinTail(Concat(before), g);
      JoinTail(Concat(TakenAll(before)), Taken(g));
      TakenScan(g);
      if FalseWhole(g) { ScanOfWhole(Taken(g)); }
    }
  }

  lemma LongestOfTwo(f: seq<byte>, g: seq<byte>, carried: nat)
    requires Tail(f) <= carried
    ensures var longest := Longest(f + g);
            && Longest(f) <= longest && Longest(g) <= longest
            && (longest == Longest(f) || longest == Longest(g) || longest <= carried + Head(g))
  {
    JoinLongest(f, g);
  }

  /** No part has a longer run inside than the file, and the file's longest run
      lies inside a part or is glued. */
  ghost predicate Covers(o: seq<Offer>, longest: nat)
  {
    && (forall j | 0 <= j < |o| :: o[j].longest <= longest)
    && (exists j :: 0 <= j < |o| && (o[j].longest == longest || longest <= o[j].glued))
  }

  lemma CoversMore(o: seq<Offer>, earlier: nat, last: Offer, longest: nat)
    requires if o == [] then earlier == 0 else Covers(o, earlier)
    requires earlier <= longest && last.longest <= longest
    requires longest == earlier || longest == last.longest || longest <= last.glued
    ensures Covers(o + [last], longest)
  {
    var more := o + [last];
    assert more[|o|] == last;
    if longest == earlier && o != [] {
      var j :| 0 <= j < |o| && (o[j].longest == earlier || earlier <= o[j].glued);
      assert more[j] == o[j];
    }
  }

  lemma {:induction false} OffersCover(pieces: seq<seq<byte>>)
    requires pieces != []
    ensures Covers(Offers(pieces), Longest(Concat(pieces)))
  {
    var before := pieces[..|pieces| - 1];
    if before != [] {
      OffersCover(before);
    }
    TakenTail(before);
    LongestOfTwo(Concat(before), pieces[|pieces| - 1], Tail(Concat(TakenAll(before))));
    OffersInFront(pieces);
    CoversMore(Offers(before), Longest(Concat(before)), OfferAt(pieces, |pieces| - 1), Longest(Concat(pieces)));
  }

  // ----- when the best offer is right

  lemma {:induction false} BestIsOffered(o: seq<Offer>)
    requires o != []
    ensures forall j | 0 <= j < |o| :: o[j].Value() <= Best(o)
    ensures exists j :: 0 <= j < |o| && o[j].Value() == Best(o)
  {
    var front := o[..|o| - 1];
    if front != [] {
      BestIsOffered(front);
      var j :| 0 <= j < |front| && front[j].Value() == Best(front);
      assert o[j] == front[j];
    }
    assert o[|o| - 1].Value() <= Best(o);
  }

  /** No glued run is too long, and one of them, or a run that is not hidden, has
      the given length. */
  ghost predicate Finds(o: seq<Offer>, longest: nat)
  {
    && (forall j | 0 <= j < |o| :: o[j].glued <= longest)
    && (exists j :: 0 <= j < |o| && (o[j].glued == longest || (!o[j].hidden && o[j].longest == longest)))
  }

  ghost predicate TooLong(o: seq<Offer>, longest: nat)
  {
    exists j :: 0 <= j < |o| && longest < o[j].glued
  }

  /** The longest run is found, but only hidden, and every glued run is shorter. */
  ghost predicate TooShort(o: seq<Offer>, longest: nat)
  {
    && (exists j :: 0 <= j < |o| && o[j].hidden && o[j].longest == longest)
    && (forall j | 0 <= j < |o| :: o[j].glued < longest && (o[j].longest == longest ==> o[j].hidden))
  }

  lemma BestIff(o: seq<Offer>, longest: nat)
    requires o != [] && Covers(o, longest)
    ensures Best(o) == longest <==> Finds(o, longest)
    ensures Best(o) > longest <==> TooLong(o, longest)
    ensures Best(o) < longest <==> TooShort(o, longest)
  {
    BestIsOffered(o);
    var best :| 0 <= best < |o| && o[best].Value() == Best(o);
    var there :| 0 <= there < |o| && (o[there].longest == longest || longest <= o[there].glued);
    forall j | 0 <= j < |o| ensures o[j].glued <= Best(o) && (!o[j].hidden ==> o[j].longest <= Best(o)) {
      assert o[j].Value() <= Best(o);
    }
  }

  /** The merged maximum is the longest run of the file exactly when the parts
      offer it and nothing longer; it fails in two ways. */
  lemma {:induction false} MaximumAgreesIff(pieces: seq<seq<byte>>)
    requires EmptyFirst(pieces) && pieces != []
    ensures var o, longest, found := Offers(pieces), Longest(Concat(pieces)), Merged(pieces).maxLength;
            && (found == longest <==> Finds(o, longest))
            && (found > longest <==> TooLong(o, longest))
            && (found < longest <==> TooShort(o, longest))
  {
    MergedIsBest(pieces);
    OffersCover(pieces);
    BestIff(Offers(pieces), Longest(Concat(pieces)));
  }

  /** Without false wholes it is right, across any number of parts. */
  lemma {:induction false} MaximumAgrees(pieces: seq<seq<byte>>)
    requires EmptyFirst(pieces) && pieces != []
    requires forall j | 0 <= j < |pieces| :: !FalseWhole(pieces[j])
    ensures Merged(pieces).maxLength == Longest(Concat(pieces))
  {
    MergedMaximum(pieces);
    assert TakenAll(pieces) == pieces;
  }

  /** The threads' maximum for every file and number of threads: its value, when
      it is right, when too long and when too short. */
  lemma {:induction false} ThreadedMaximum(file: seq<byte>, n: nat)
    requires 1 <= n
    ensures var p, longest := Pieces(file, n, n), Longest(file);
            var o, found := Offers(p), Merged(p).maxLength;
            && found == Longest(Concat(TakenAll(p)))
            && (found == longest <==> Finds(o, longest))
            && (found > longest <==> TooLong(o, longest))
            && (found < longest <==> TooShort(o, longest))
            && ((forall j | 0 <= j < n :: !FalseWhole(p[j])) ==> found == longest)
  {
    PiecesEmptyFirst(file, n);
    MergedMaximum(Pieces(file, n, n));
    MaximumAgreesIff(Pieces(file, n, n));
    if forall j | 0 <= j < n :: !FalseWhole(Pieces(file, n, n)[j]) {
      MaximumAgrees(Pieces(file, n, n));
    }
  }
}
