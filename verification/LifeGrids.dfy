/** Every step keeps the part of the invariant about the two grids: `before`
    holds the generation being played, and `after` fills up with the next. */
module LifeGrids {
  import opened LifeBoard
  import opened LifeProtocol
  import opened LifeInvariant
  import opened LifeSafety
  import opened LifeParent
  import opened Partition
  import opened Steps

  /** One cell of the next board, computed as the program does. */
  lemma NextBoardCell(c: Config, b: Boards, k: int, g: Grid, x: int, y: int)
    requires Follows(c.lines, c.columns, b, k) && Inside(c.lines, c.columns, x, y) && SameGrid(g, b(k))
    ensures Rule(CountTo(c.lines, c.columns, g, x, y, 8), At(g, x, y)) == At(b(k + 1), x, y)
  {
    RuleIsNextCell(c.lines, c.columns, g, x, y);
    NextCellOnBoard(c.lines, c.columns, g, b(k), x, y);
  }

  // ----- workers: what a step does to the cells it counts as written

  lemma FetchWritesNothing(c: Config, p: Parent, w: Worker, i: int, next: Grid, after: Grid, before: Grid)
    requires c.Valid() && 1 <= i <= c.n && WorkerOk(c, p, w, i)
    requires w.pc.Fetch? && w.pc.op == Post && RowsOk(c, next, after, p.cGen, w, i)
    ensures var w' := AfterFetch(c, w.pc.first, w);
            RowsOk(c, next, after, p.cGen, w', i) && CounterOk(c, before, w')
  {
  }

  lemma WriteFillsCell(c: Config, w: Worker, i: int, g: int, next: Grid, after: Grid, value: int)
    requires c.Valid() && 1 <= i <= c.n && w.pc.Count? && w.gen == g + 1
    requires w.lineTo == Hi(c.lines, c.n, i) && 0 <= w.pc.column < c.columns
    requires RowsOk(c, next, after, g, w, i) && value == At(next, w.pc.line, w.pc.column)
    ensures var w' := w.(pc := AfterCell(c, w, w.pc.line, w.pc.column));
            RowsOk(c, next, after[(w.pc.line, w.pc.column) := value], g, w', i) 
  {
    var w' := w.(pc := AfterCell(c, w, w.pc.line, w.pc.column));
    forall x, y | InPart(c.lines, c.n, i, x) && Inside(c.lines, c.columns, x, y) && Wrote(g, w', x, y)
      ensures At(after[(w.pc.line, w.pc.column) := value], x, y) == At(next, x, y)
    {
      if (x, y) != (w.pc.line, w.pc.column) {
        assert Wrote(g, w, x, y);
      }
    }
  }

  lemma WriteSparesOthers(c: Config, w: Worker, i: int, j: int, wj: Worker, g: int, next: Grid, after: Grid, value: int)
    requires c.Valid() && 1 <= i <= c.n && 1 <= j <= c.n && i != j && w.pc.Count? && InPart(c.lines, c.n, i, w.pc.line)
    requires RowsOk(c, next, after, g, wj, j)
    ensures RowsOk(c, next, after[(w.pc.line, w.pc.column) := value], g, wj, j)
  {
    forall x, y | InPart(c.lines, c.n, j, x) && Inside(c.lines, c.columns, x, y) && Wrote(g, wj, x, y)
      ensures At(after[(w.pc.line, w.pc.column) := value], x, y) == At(next, x, y)
    {
      if x == w.pc.line {
        PartsDisjoint(c.lines, c.n, i, j, x);
      }
    }
  }

  /** After the counters of the worker moved on without a write. */
  lemma SameWritten(c: Config, next: Grid, after: Grid, g: int, w: Worker, w': Worker, i: int)
    requires 1 <= c.n && RowsOk(c, next, after, g, w, i)
    requires forall x, y :: Wrote(g, w', x, y) ==> Wrote(g, w, x, y)
    ensures RowsOk(c, next, after, g, w', i)
  {
  }

  // ----- workers: the steps

  lemma FetchKeepsRows(c: Config, b: Boards, s: State, i: int)
    requires c.Valid() && Sized(c, s) && 1 <= i <= c.n && WorkerEnabled(c, s, i) && s.workers[i - 1].pc.Fetch?
    requires WorkerAt(c, s, i) && RowsAt(c, b, s, i)
    ensures RowsAt(c, b, FetchStep(c, s, i), i)
  {
    var w := s.workers[i - 1];
    var next := b(s.parent.cGen + 1);
    if w.pc.op == Post {
      FetchWritesNothing(c, s.parent, w, i, next, s.after, s.before);
    } else {
      SameWritten(c, next, s.after, s.parent.cGen, w, FetchStep(c, s, i).workers[i - 1], i);
    }
  }

  lemma TestKeepsRows(c: Config, b: Boards, s: State, i: int)
    requires c.Valid() && Sized(c, s) && 1 <= i <= c.n && s.workers[i - 1].pc.Count?
    requires s.workers[i - 1].pc.test < 8 && RowsAt(c, b, s, i)
    ensures RowsAt(c, b, CountStep(c, s, i), i) && CountStep(c, s, i).after == s.after
  {
    SameWritten(c, b(s.parent.cGen + 1), s.after, s.parent.cGen, s.workers[i - 1], CountStep(c, s, i).workers[i - 1], i);
  }

  lemma WriteKeepsRows(c: Config, b: Boards, s: State, i: int)
    requires c.Valid() && Sized(c, s) && 1 <= i <= c.n && s.workers[i - 1].pc.Count?
    requires s.workers[i - 1].pc.test == 8 && RowsAt(c, b, s, i) && WorkerAt(c, s, i)
    requires 0 <= s.parent.cGen && s.workers[i - 1].gen == s.parent.cGen + 1
    requires SameGrid(s.before, b(s.parent.cGen)) && Follows(c.lines, c.columns, b, s.parent.cGen)
    ensures RowsAt(c, b, CountStep(c, s, i), i)
  {
    var w := s.workers[i - 1];
    PartsTouch(c.lines, c.n, i);
    NextBoardCell(c, b, s.parent.cGen, s.before, w.pc.line, w.pc.column);
    WriteFillsCell(c, w, i, s.parent.cGen, b(s.parent.cGen + 1), s.after,
                   Rule(w.pc.counter, At(s.before, w.pc.line, w.pc.column)));
  }

  lemma ReplyKeepsRows(c: Config, b: Boards, s: State, i: int)
    requires c.Valid() && Sized(c, s) && 1 <= i <= c.n && WorkerEnabled(c, s, i) && s.workers[i - 1].pc.Reply?
    requires WorkerAt(c, s, i) && RowsAt(c, b, s, i) && s.parent.cGen < c.generations
    ensures RowsAt(c, b, ReplyStep(c, s, i), i)
  {
    SameWritten(c, b(s.parent.cGen + 1), s.after, s.parent.cGen, s.workers[i - 1], ReplyStep(c, s, i).workers[i - 1], i);
  }

  lemma BarrierKeepsRows(c: Config, b: Boards, s: State, i: int)
    requires c.Valid() && Sized(c, s) && 1 <= i <= c.n && WorkerEnabled(c, s, i) && InBarrier(s.workers[i - 1])
    requires WorkerAt(c, s, i) && RowsAt(c, b, s, i) && s.parent.cGen < c.generations
    ensures RowsAt(c, b, BarrierStep(c, s, i), i)
  {
    SameWritten(c, b(s.parent.cGen + 1), s.after, s.parent.cGen, s.workers[i - 1], BarrierStep(c, s, i).workers[i - 1], i);
  }

  lemma WorkerKeepsRows(c: Config, b: Boards, s: State, i: int)
    requires c.Valid() && Sized(c, s) && 1 <= i <= c.n && WorkerEnabled(c, s, i)
    requires ParentOk(c, s.parent) && WorkerAt(c, s, i) && ChannelAt(c, s, i) && Writing(c, s.parent)
    requires RowsAt(c, b, s, i) && BeforeOk(c, b, s) && Follows(c.lines, c.columns, b, s.parent.cGen)
    ensures RowsAt(c, b, WorkerStep(c, s, i), i)
  {
    BusyInRound(c, s, i);
    var pc := s.workers[i - 1].pc;
    if pc.Fetch? { FetchKeepsRows(c, b, s, i); }
    else if pc.Count? && pc.test < 8 { TestKeepsRows(c, b, s, i); }
    else if pc.Count? { WriteKeepsRows(c, b, s, i); }
    else if pc.Reply? { ReplyKeepsRows(c, b, s, i); }
    else { BarrierKeepsRows(c, b, s, i); }
  }

  lemma OthersKeepRows(c: Config, b: Boards, s: State, i: int, j: int)
    requires c.Valid() && Sized(c, s) && 1 <= i <= c.n && 1 <= j <= c.n && i != j && WorkerEnabled(c, s, i)
    requires WorkerAt(c, s, i) && RowsAt(c, b, s, j) && OnlyWorker(c, s, WorkerStep(c, s, i), i)
    ensures RowsAt(c, b, WorkerStep(c, s, i), j)
  {
    var w, wj := s.workers[i - 1], s.workers[j - 1];
    if w.pc.Count? && w.pc.test == 8 {
      WriteSparesOthers(c, w, i, j, wj, s.parent.cGen, b(s.parent.cGen + 1), s.after,
                        Rule(w.pc.counter, At(s.before, w.pc.line, w.pc.column)));
    }
  }

  lemma WorkerKeepsGrids(c: Config, b: Boards, s: State, i: int)
    requires c.Valid() && Sized(c, s) && 1 <= i <= c.n && WorkerEnabled(c, s, i) && Evolves(c.lines, c.columns, b)
    requires ProtocolOk(c, s) && GridsOk(c, b, s) && OnlyWorker(c, s, WorkerStep(c, s, i), i)
    ensures GridsOk(c, b, WorkerStep(c, s, i))
  {
    hide RowsOk, CounterOk, WorkerOk, ChannelOk, WorkerStep;
    var s' := WorkerStep(c, s, i);
    assert WorkerAt(c, s, i) && ChannelAt(c, s, i);
    BusyInRound(c, s, i);
    if Writing(c, s.parent) {
      forall j | 1 <= j <= c.n ensures RowsAt(c, b, s', j) {
        assert RowsAt(c, b, s, j);
        assert Follows(c.lines, c.columns, b, s.parent.cGen);
        if i == j { WorkerKeepsRows(c, b, s, i); } else { OthersKeepRows(c, b, s, i, j); }
      }
    }
  }

  // ----- the parent

  lemma CreateKeepsGrids(c: Config, b: Boards, s: State)
    requires c.Valid() && Sized(c, s) && s.parent.pc.Create? && ProtocolOk(c, s) && GridsOk(c, b, s)
    ensures GridsOk(c, b, CreateStep(c, s))
  {
    var s' := CreateStep(c, s);
    forall j | 1 <= j <= c.n ensures RowsAt(c, b, s', j) {
      assert RowsAt(c, b, s, j) && WorkerAt(c, s, j);
      SameWritten(c, b(1), s.after, 0, s.workers[j - 1], s'.workers[j - 1], j);
    }
  }

  lemma SendKeepsGrids(c: Config, b: Boards, s: State)
    requires c.Valid() && Sized(c, s) && s.parent.pc.Send? && ParentEnabled(c, s) && ParentOk(c, s.parent) && GridsOk(c, b, s)
    ensures GridsOk(c, b, SendStep(c, s))
  {
    hide SendStep, RowsOk, CounterOk, At, ParentOk;
    SendFrame(c, s);
    SendParent(c, s);
    SendGridParent(c, s);
    var s' := SendStep(c, s);
    if Writing(c, s.parent) {
      forall j | 1 <= j <= c.n ensures RowsAt(c, b, s', j) {
        assert RowsAt(c, b, s, j);
      }
    }
  }

  lemma SendGridParent(c: Config, s: State)
    requires c.Valid() && Sized(c, s) && s.parent.pc.Send? && ParentEnabled(c, s) && ParentOk(c, s.parent)
    ensures var p, p' := s.parent, SendStep(c, s).parent;
            Writing(c, p') == Writing(c, p) && Stopped(p') == Stopped(p)
            && ((p'.pc.Send? && (p'.pc.kind == STOP) == (p.pc.kind == STOP)) || p'.pc.Recv? || p'.pc == Print(0, 0))
            && (p'.pc.Recv? ==> p.pc.kind == GO) && (p'.pc.Print? ==> p.pc.kind == STOP)
  {
    hide RangeMsg;
  }

  /** When all reports of a round are in, `after` is the next board. */
  lemma RoundFillsBoard(c: Config, b: Boards, s: State)
    requires c.Valid() && Sized(c, s) && ProtocolOk(c, s) && AfterOk(c, b, s)
    requires s.parent.pc.Recv? && s.parent.pc.i == c.n && s.parent.pc.op == Post && s.parent.cGen < c.generations
    ensures SameBoard(c.lines, c.columns, s.after, b(s.parent.cGen + 1))
  {
    RoundComplete(c, s);
    forall x, y | Inside(c.lines, c.columns, x, y)
      ensures At(s.after, x, y) == At(b(s.parent.cGen + 1), x, y)
    {
      PartsTouch(c.lines, c.n, c.n);
      var i := PartsCover(c.lines, c.n, x, c.n);
      assert RowsAt(c, b, s, i);
      assert Wrote(s.parent.cGen, s.workers[i - 1], x, y);
    }
  }

  lemma RecvKeepsGrids(c: Config, b: Boards, s: State)
    requires c.Valid() && Sized(c, s) && s.parent.pc.Recv? && ParentEnabled(c, s) && ProtocolOk(c, s) && GridsOk(c, b, s)
    ensures GridsOk(c, b, RecvStep(c, s))
  {
    if s.parent.pc.op == Post && s.parent.pc.i == c.n {
      RoundEndKeepsGrids(c, b, s);
    } else {
      RecvMidKeepsGrids(c, b, s);
    }
  }

  lemma RecvMidKeepsGrids(c: Config, b: Boards, s: State)
    requires c.Valid() && Sized(c, s) && s.parent.pc.Recv? && ParentEnabled(c, s) && ParentOk(c, s.parent) && GridsOk(c, b, s)
    requires !(s.parent.pc.op == Post && s.parent.pc.i == c.n)
    ensures GridsOk(c, b, RecvStep(c, s))
  {
    hide RowsOk, CounterOk;
    var s' := RecvStep(c, s);
    if Writing(c, s.parent) {
      forall j | 1 <= j <= c.n ensures RowsAt(c, b, s', j) {
        assert RowsAt(c, b, s, j);
      }
    }
  }

  lemma RoundEndKeepsGrids(c: Config, b: Boards, s: State)
    requires c.Valid() && Sized(c, s) && s.parent.pc.Recv? && ProtocolOk(c, s) && GridsOk(c, b, s)
    requires s.parent.pc.op == Post && s.parent.pc.i == c.n
    ensures GridsOk(c, b, RecvStep(c, s))
  {
    hide RowsAt, RowsOk, CounterOk, WorkerOk, ChannelOk, StopTest;
    if s.parent.cGen < c.generations { RoundFillsBoard(c, b, s); }
    var p, p' := s.parent, RecvStep(c, s).parent;
    assert p'.pc == TestZero(0, 0, true) || (p'.pc == Print(0, 0) && p'.cGen == p.cGen && p'.allDone == c.n);
  }

  /** The double loops visit every cell of the board once, in order. */
  lemma ScanOrder(c: Config, line: int, column: int)
    requires Inside(c.lines, c.columns, line, column)
    ensures LastCell(c, line, column) ==>
              forall x, y :: Inside(c.lines, c.columns, x, y) ==>
                Earlier(x, y, line, column) || (x, y) == (line, column)
    ensures !LastCell(c, line, column) ==>
              var (l, k) := NextIndex(c, line, column);
              Inside(c.lines, c.columns, l, k)
              && forall x, y :: Inside(c.lines, c.columns, x, y) ==>
                   (Earlier(x, y, l, k) <==> Earlier(x, y, line, column) || (x, y) == (line, column))
  {
  }

  lemma TestZeroKeepsGrids(c: Config, b: Boards, s: State)
    requires c.Valid() && Sized(c, s) && s.parent.pc.TestZero? && ParentOk(c, s.parent) && GridsOk(c, b, s)
    ensures GridsOk(c, b, ScanStep(c, s))
  {
    var line, column := s.parent.pc.line, s.parent.pc.column;
    ScanOrder(c, line, column);
    assert At(s.after, line, column) == At(b(s.parent.cGen), line, column);
  }

  lemma TestSameKeepsGrids(c: Config, b: Boards, s: State)
    requires c.Valid() && Sized(c, s) && s.parent.pc.TestSame? && ParentOk(c, s.parent) && GridsOk(c, b, s)
    ensures GridsOk(c, b, ScanStep(c, s))
  {
    var line, column := s.parent.pc.line, s.parent.pc.column;
    ScanOrder(c, line, column);
    assert At(s.after, line, column) == At(b(s.parent.cGen), line, column);
  }

  /** While the parent copies `after` back, no worker has begun the next board. */
  lemma NoneAhead(c: Config, s: State, i: int)
    requires Sized(c, s) && 1 <= i <= c.n && ParentOk(c, s.parent) && WorkerAt(c, s, i) && ChannelAt(c, s, i)
    requires s.parent.pc.Update?
    ensures s.workers[i - 1].gen <= s.parent.cGen + 1 && !Busy(s.workers[i - 1])
  {
  }

  lemma NothingWritten(c: Config, b: Boards, s: State, i: int)
    requires c.Valid() && Sized(c, s) && s.parent.pc.Update? && ProtocolOk(c, s) && 1 <= i <= c.n
    ensures RowsAt(c, b, ScanStep(c, s), i)
  {
    assert WorkerAt(c, s, i) && ChannelAt(c, s, i);
    NoneAhead(c, s, i);
  }

  lemma UpdateKeepsGrids(c: Config, b: Boards, s: State)
    requires c.Valid() && Sized(c, s) && s.parent.pc.Update? && ProtocolOk(c, s) && GridsOk(c, b, s) && Evolves(c.lines, c.columns, b)
    ensures GridsOk(c, b, ScanStep(c, s))
  {
    hide RowsAt, At, WorkerOk, ChannelOk;
    var s' := ScanStep(c, s);
    ScanOrder(c, s.parent.pc.line, s.parent.pc.column);
    assert Follows(c.lines, c.columns, b, s.parent.cGen) && Follows(c.lines, c.columns, b, s.parent.cGen - 1);
    UpdateKeepsBefore(c, b, s);
    if Writing(c, s'.parent) {
      forall j | 1 <= j <= c.n ensures RowsAt(c, b, s', j) {
        NothingWritten(c, b, s, j);
      }
    }
  }

  lemma UpdateKeepsBefore(c: Config, b: Boards, s: State)
    requires c.Valid() && Sized(c, s) && s.parent.pc.Update? && ParentOk(c, s.parent) && GridsOk(c, b, s)
    requires Framed(c.lines, c.columns, b(s.parent.cGen)) && Framed(c.lines, c.columns, b(s.parent.cGen - 1))
    ensures BeforeOk(c, b, ScanStep(c, s))
  {
    var line, column := s.parent.pc.line, s.parent.pc.column;
    ScanOrder(c, line, column);
    assert At(s.after, line, column) == At(b(s.parent.cGen), line, column);
  }

  lemma PrintKeepsGrids(c: Config, b: Boards, s: State)
    requires c.Valid() && Sized(c, s) && s.parent.pc.Print? && ParentOk(c, s.parent) && GridsOk(c, b, s)
    ensures GridsOk(c, b, ScanStep(c, s))
  {
    ScanOrder(c, s.parent.pc.line, s.parent.pc.column);
  }

  lemma ParentKeepsGrids(c: Config, b: Boards, s: State)
    requires c.Valid() && Sized(c, s) && ParentEnabled(c, s) && ProtocolOk(c, s) && GridsOk(c, b, s) && Evolves(c.lines, c.columns, b)
    ensures GridsOk(c, b, ParentStep(c, s))
  {
    var pc := s.parent.pc;
    if pc.Create? { CreateKeepsGrids(c, b, s); }
    else if pc.Send? { SendKeepsGrids(c, b, s); }
    else if pc.Recv? { RecvKeepsGrids(c, b, s); }
    else if pc.TestZero? { TestZeroKeepsGrids(c, b, s); }
    else if pc.TestSame? { TestSameKeepsGrids(c, b, s); }
    else if pc.Update? { UpdateKeepsGrids(c, b, s); }
    else if pc.Print? { PrintKeepsGrids(c, b, s); }
  }
}
