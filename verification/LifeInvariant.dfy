/** What every reachable state of the parallel Game of Life satisfies. */
module LifeInvariant {
  import opened LifeBoard
  import opened LifeProtocol
  import opened Partition
  import opened Steps
  import opened Sums

  // ----- message counters, read off the program counters

  /** Semaphore waits worker w has passed on its own mailbox. */
  function Taken(w: Worker): int
  {
    match w.pc
    case Unborn => 0
    case Fetch(first, op) => (if first then 0 else w.gen) + (if op == Wait then 0 else 1)
    case Count(_, _, _, _) => w.gen + 1
    case Reply(last, _) => if last then w.gen else w.gen + 1
    case ExitStop => w.gen + 1
    case _ => w.gen
  }

  /** Messages w has copied out of its own mailbox. */
  function CopiedOut(w: Worker): int
  {
    match w.pc
    case Fetch(first, op) => (if first then 0 else w.gen) + (if op == Post then 1 else 0)
    case _ => Taken(w)
  }

  /** Messages w has finished receiving from its own mailbox. */
  function Released(w: Worker): int
  {
    match w.pc
    case Fetch(first, _) => if first then 0 else w.gen
    case _ => Taken(w)
  }

  /** Messages w has finished depositing in the parent's mailbox. */
  function Deposited(w: Worker): int
  {
    if w.pc.ExitEnd? then w.gen else w.gen - 1
  }

  /** The same, counting one whose copy into the mailbox is done. */
  function CopiedIn(w: Worker): int
  {
    Deposited(w) + (if w.pc.Reply? && w.pc.op == Post then 1 else 0)
  }

  /** The same, counting one that has passed the wait on the parent's mailbox. */
  function Claimed(w: Worker): int
  {
    Deposited(w) + (if w.pc.Reply? && w.pc.op != Wait then 1 else 0)
  }

  function Rank(op: Op): int
  {
    match op
    case Wait => 0
    case Copy => 1
    case Post => 2
  }

  /** Whole messages the parent has sent to every worker. */
  function Base(p: Parent): int
  {
    match p.pc
    case Create(_) => 0
    case Send(kind, _, _) => if kind == RANGE then 0 else p.cGen + 1
    case TestZero(_, _, _) => p.cGen + 1
    case TestSame(_, _, _) => p.cGen + 1
    case Update(_, _) => p.cGen + 1
    case _ => p.cGen + 2
  }

  /** Messages to worker i whose sending has got past step `stage` (0 for the
      wait, 1 for the copy, 2 for the post). */
  function SentPast(p: Parent, i: int, stage: int): int
  {
    Base(p) + (if p.pc.Send? && (i < p.pc.i || (i == p.pc.i && stage < Rank(p.pc.op))) then 1 else 0)
  }

  /** Messages received from the parent's mailbox in the current round, past
      the given step. */
  function RecvPast(p: Parent, stage: int): int
  {
    match p.pc
    case Recv(i, op) => i - 1 + (if stage < Rank(op) then 1 else 0)
    case _ => p.allDone
  }

  /** The parent has decided to stop early. */
  predicate Stopped(p: Parent)
  {
    p.allDone == 0
    && ((p.pc.Send? && p.pc.kind == STOP) || p.pc.Print? || p.pc.Join? || p.pc.Finished?)
  }

  /** The kind of the m-th message to a worker. */
  function KindNo(p: Parent, m: int): Kind
  {
    if m == 0 then RANGE else if Stopped(p) && m == p.cGen + 1 then STOP else GO
  }

  /** The kind of every message the parent receives in this round. */
  function ReplyKind(c: Config, p: Parent): Kind
  {
    if p.cGen < c.generations then GENDONE else ALLDONE
  }

  // ----- the invariant, part by part

  /** The parent's own variables. */
  predicate ParentOk(c: Config, p: Parent)
  {
    match p.pc
    case Create(i) => 1 <= i <= c.n && p.cGen == 0 && p.allDone == 0
    case Send(kind, i, _) =>
      1 <= i <= c.n && p.allDone == 0
      && (kind == RANGE || kind == GO || kind == STOP)
      && (kind == RANGE ==> p.cGen == 0)
      && (if kind == STOP then 1 else 0) <= p.cGen <= c.generations
    case Recv(i, op) =>
      1 <= i <= c.n && 0 <= p.cGen <= c.generations
      && p.genDone == (if p.cGen < c.generations then i - 1 else 0)
      && p.allDone == (if p.cGen < c.generations then 0 else i - 1)
      && (op == Post ==> p.message.kind == ReplyKind(c, p))
    case TestZero(line, column, _) => 1 <= p.cGen <= c.generations && p.allDone == 0 && Inside(c.lines, c.columns, line, column)
    case TestSame(line, column, _) => 1 <= p.cGen <= c.generations && p.allDone == 0 && Inside(c.lines, c.columns, line, column)
    case Update(line, column) => 1 <= p.cGen <= c.generations && p.allDone == 0 && Inside(c.lines, c.columns, line, column)
    case Print(line, column) => EndOk(c, p) && Inside(c.lines, c.columns, line, column)
    case Join(i) => EndOk(c, p) && 1 <= i <= c.n
    case Finished => EndOk(c, p)
  }

  predicate EndOk(c: Config, p: Parent)
  {
    1 <= p.cGen <= c.generations && (p.allDone == 0 || (p.allDone == c.n && p.cGen == c.generations))
  }

  /** The variables of worker i, and how far it may be from the parent. */
  predicate WorkerOk(c: Config, p: Parent, w: Worker, i: int)
    requires 1 <= c.n
  {
    && !w.pc.Failed?
    && 1 <= w.gen && p.cGen + 1 <= w.gen
    && (w.pc.Unborn? <==> p.pc.Create? && p.pc.i <= i)
    && (w.pc.Unborn? || (w.pc.Fetch? && w.pc.first) ==> w.gen == 1)
    && ((w.pc.Fetch? && !w.pc.first) || w.pc.Count? || (w.pc.Reply? && !w.pc.last) || w.pc.ExitStop?
        ==> w.gen <= c.generations && w.lineFrom == Lo(c.lines, c.n, i) && w.lineTo == Hi(c.lines, c.n, i))
    && (InBarrier(w) || (w.pc.Reply? && w.pc.last) || w.pc.ExitEnd? ==> w.gen == c.generations + 1)
    && (w.pc.Count? ==> w.lineFrom <= w.pc.line <= w.lineTo && 0 <= w.pc.column < c.columns && w.pc.test <= 8)
    && (w.pc.Count? || (w.pc.Reply? && !w.pc.last) ==> !Stopped(p))
    && (w.pc.ExitStop? ==> Stopped(p) && w.gen == p.cGen + 1)
    && (Stopped(p) ==> w.gen <= p.cGen + 1)
    && (w.pc.Fetch? && w.pc.op == Post ==>
          if w.pc.first then w.message == RangeMsg(c, i) else w.message.kind == KindNo(p, w.gen))
  }

  predicate WorkerAt(c: Config, s: State, i: int)
    requires Sized(c, s) && 1 <= i <= c.n
  {
    WorkerOk(c, s.parent, s.workers[i - 1], i)
  }

  /** Mailbox i: its semaphores are differences of counters, and a message
      copied in and not yet copied out is the one due. */
  predicate ChannelOk(c: Config, p: Parent, w: Worker, i: int, semS: int, semR: int, box: Msg)
    requires 1 <= c.n
  {
    && 0 <= semR == SentPast(p, i, 2) - Taken(w)
    && 0 <= semS == 1 + Released(w) - SentPast(p, i, 0)
    && (CopiedOut(w) < SentPast(p, i, 1) ==>
          box.kind == KindNo(p, SentPast(p, i, 1) - 1)
          && (SentPast(p, i, 1) == 1 ==> box == RangeMsg(c, i)))
  }

  predicate ChannelAt(c: Config, s: State, i: int)
    requires Sized(c, s) && 1 <= i <= c.n
  {
    ChannelOk(c, s.parent, s.workers[i - 1], i, s.semS[i], s.semR[i], s.mailboxes[i])
  }

  ghost predicate ThreadsOk(c: Config, s: State)
    requires Sized(c, s)
  {
    forall i | 1 <= i <= c.n :: WorkerAt(c, s, i) && ChannelAt(c, s, i)
  }

  /** The parent's mailbox: the same with many senders, counted relative to the
      generations the parent has completed. */
  ghost predicate CollectOk(c: Config, s: State)
    requires Sized(c, s)
  {
    var p := s.parent;
    && 0 <= s.semR[0] == Sum(s.workers, Deposited, p.cGen) - RecvPast(p, 0)
    && 0 <= s.semS[0] == 1 + RecvPast(p, 2) - Sum(s.workers, Claimed, p.cGen)
    && (RecvPast(p, 1) < Sum(s.workers, CopiedIn, p.cGen) ==> s.mailboxes[0].kind == ReplyKind(c, p))
  }

  function InCritical(w: Worker): int
  {
    if w.pc.BarLoad? || w.pc.BarStore? || w.pc.BarPost? then 1 else 0
  }

  /** w has counted itself at the barrier. */
  function Arrived(w: Worker): int
  {
    if w.pc.BarPost? || w.pc.BarTest? || w.pc.BarOpen? || w.pc.BarPass?
       || (w.pc.Reply? && w.pc.last) || w.pc.ExitEnd? then 1 else 0
  }

  /** w has passed the barrier. */
  function Passed(w: Worker): int
  {
    if (w.pc.Reply? && w.pc.last) || w.pc.ExitEnd? then 1 else 0
  }

  predicate Opening(w: Worker)
  {
    w.pc.BarPost? || w.pc.BarTest? || w.pc.BarOpen?
  }

  /** All permits ever posted on alldone_sem. */
  ghost function Permits(s: State): int
  {
    s.alldoneSem + Sum(s.workers, Passed, 0)
  }

  ghost predicate AllArrived(s: State)
  {
    forall k | 0 <= k < |s.workers| :: Arrived(s.workers[k]) == 1
  }

  predicate AtBarrierOk(c: Config, s: State, w: Worker, permits: int)
  {
    (w.pc.BarStore? ==> w.pc.seen == s.barrierCount)
    && (w.pc.BarOpen? ==> 0 <= w.pc.posts <= c.n && w.pc.posts <= permits && s.barrierCount == c.n)
  }

  ghost predicate BarrierOk(c: Config, s: State)
    requires Sized(c, s)
  {
    && 0 <= s.gendoneSem == 1 - Sum(s.workers, InCritical, 0)
    && s.barrierCount == Sum(s.workers, Arrived, 0)
    && 0 <= s.alldoneSem
    && (forall k | 0 <= k < c.n :: AtBarrierOk(c, s, s.workers[k], Permits(s)))
    && (0 < Permits(s) ==> s.barrierCount == c.n)
    && (s.barrierCount == c.n ==>
          c.n + 1 <= Permits(s) || exists k :: 0 <= k < c.n && Opening(s.workers[k]))
  }

  // ----- the two grids

  predicate Earlier(x: int, y: int, line: int, column: int)
  {
    x < line || (x == line && y < column)
  }

  ghost predicate SameGrid(g: Grid, h: Grid)
  {
    forall x, y :: At(g, x, y) == At(h, x, y)
  }

  /** The board the parent and the workers read from. */
  ghost predicate BeforeOk(c: Config, b: Boards, s: State)
  {
    var p := s.parent;
    match p.pc
    case Create(_) => SameGrid(s.before, b(p.cGen))
    case Send(kind, _, _) => SameGrid(s.before, b(if kind == STOP then p.cGen - 1 else p.cGen))
    case Recv(_, _) => SameGrid(s.before, b(p.cGen))
    case TestZero(_, _, _) => SameGrid(s.before, b(p.cGen - 1))
    case TestSame(_, _, _) => SameGrid(s.before, b(p.cGen - 1))
    case Update(line, column) =>
      forall x, y :: At(s.before, x, y) ==
        if Inside(c.lines, c.columns, x, y) && Earlier(x, y, line, column) then At(b(p.cGen), x, y)
        else At(b(p.cGen - 1), x, y)
    case _ => true
  }

  /** A round is under way: workers may be writing the next board. */
  predicate Writing(c: Config, p: Parent)
  {
    p.cGen < c.generations
    && (p.pc.Create? || p.pc.Recv? || (p.pc.Send? && p.pc.kind != STOP))
  }

  /** Worker w has written its cell (x, y) of the generation after g. */
  predicate Wrote(g: int, w: Worker, x: int, y: int)
  {
    g + 1 < w.gen
    || (g + 1 == w.gen &&
          ((w.pc.Reply? && !w.pc.last) || (w.pc.Count? && Earlier(x, y, w.pc.line, w.pc.column))))
  }

  /** The cells worker i has written show the next board. */
  ghost predicate RowsOk(c: Config, next: Grid, after: Grid, g: int, w: Worker, i: int)
    requires 1 <= c.n
  {
    forall x, y :: InPart(c.lines, c.n, i, x) && Inside(c.lines, c.columns, x, y) && Wrote(g, w, x, y) ==>
      At(after, x, y) == At(next, x, y)
  }

  predicate CounterOk(c: Config, before: Grid, w: Worker)
  {
    w.pc.Count? ==> w.pc.counter == CountTo(c.lines, c.columns, before, w.pc.line, w.pc.column, w.pc.test)
  }

  ghost predicate RowsAt(c: Config, b: Boards, s: State, i: int)
    requires Sized(c, s) && 1 <= i <= c.n
  {
    RowsOk(c, b(s.parent.cGen + 1), s.after, s.parent.cGen, s.workers[i - 1], i)
    && CounterOk(c, s.before, s.workers[i - 1])
  }

  ghost predicate AfterOk(c: Config, b: Boards, s: State)
    requires Sized(c, s)
  {
    if Writing(c, s.parent) then forall i | 1 <= i <= c.n :: RowsAt(c, b, s, i)
    else SameBoard(c.lines, c.columns, s.after, b(s.parent.cGen))
  }

  /** What the parent's scans have established. */
  ghost predicate ScanOk(c: Config, b: Boards, s: State)
  {
    var p := s.parent;
    match p.pc
    case TestZero(line, column, flag) =>
      flag <==> forall x, y :: Inside(c.lines, c.columns, x, y) && Earlier(x, y, line, column) ==>
                  At(b(p.cGen), x, y) == 0
    case TestSame(line, column, flag) =>
      !AllDead(c.lines, c.columns, b(p.cGen))
      && (flag <==> forall x, y :: Inside(c.lines, c.columns, x, y) && Earlier(x, y, line, column) ==>
                      At(b(p.cGen - 1), x, y) == At(b(p.cGen), x, y))
    case Print(line, column) =>
      forall x, y :: Inside(c.lines, c.columns, x, y) && Earlier(x, y, line, column) ==>
        At(s.printed, x, y) == At(b(p.cGen), x, y)
    case Join(_) => SameBoard(c.lines, c.columns, s.printed, b(p.cGen))
    case Finished => SameBoard(c.lines, c.columns, s.printed, b(p.cGen))
    case _ => true
  }

  /** The stop test failed after every generation played on, and held where the
      parent stopped. */
  ghost predicate HistoryOk(c: Config, b: Boards, s: State)
  {
    var p := s.parent;
    && (forall k | 1 <= k < p.cGen :: !StopTest(c.lines, c.columns, b, k))
    && (Stopped(p) ==> StopTest(c.lines, c.columns, b, p.cGen))
    && (!Stopped(p) && !p.pc.TestZero? && !p.pc.TestSame? ==> !StopTest(c.lines, c.columns, b, p.cGen))
  }

  /** Workers joined so far are gone. */
  ghost predicate JoinOk(c: Config, s: State)
    requires Sized(c, s)
  {
    (s.parent.pc.Join? ==> forall k | 0 <= k < s.parent.pc.i - 1 && k < c.n :: Exited(s.workers[k]))
    && (s.parent.pc.Finished? ==> forall k | 0 <= k < c.n :: Exited(s.workers[k]))
  }

  /** The part about messages and threads. */
  ghost predicate ProtocolOk(c: Config, s: State)
    requires Sized(c, s)
  {
    ParentOk(c, s.parent) && ThreadsOk(c, s) && CollectOk(c, s) && BarrierOk(c, s)
    && JoinOk(c, s)
  }

  /** The part about the grids. */
  ghost predicate GridsOk(c: Config, b: Boards, s: State)
    requires Sized(c, s)
  {
    BeforeOk(c, b, s) && AfterOk(c, b, s) && ScanOk(c, b, s) && HistoryOk(c, b, s)
  }

  /** b is what the rule makes of the input board. */
  ghost predicate Plays(c: Config, b: Boards)
  {
    b(0) == c.board && Evolves(c.lines, c.columns, b)
  }

  ghost predicate Inv(c: Config, b: Boards, s: State)
  {
    Sized(c, s) && ProtocolOk(c, s) && GridsOk(c, b, s)
  }
}
