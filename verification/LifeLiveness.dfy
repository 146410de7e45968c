/** Deadlock and termination of the parallel Game of Life. */
module LifeLiveness {
  import opened LifeBoard
  import opened LifeProtocol
  import opened LifeInvariant
  import opened LifeSafety
  import opened LifeParent
  import opened LifeTheorems
  import opened Partition
  import opened Steps
  import opened Sums

  /** The stop test holds for the first time after the very last generation. */
  ghost predicate StopsInLastRound(c: Config, b: Boards)
  {
    StopTest(c.lines, c.columns, b, c.generations)
    && forall k | 1 <= k < c.generations :: !StopTest(c.lines, c.columns, b, k)
  }

  // ----- progress, by what the parent waits for

  /** The parent can only wait to send while a worker has yet to fetch. */
  lemma SendingProgress(c: Config, s: State)
    requires c.Valid() && Sized(c, s) && ProtocolOk(c, s) && s.parent.pc.Send?
    ensures !Stuck(c, s)
  {
    var i := s.parent.pc.i;
    assert WorkerAt(c, s, i) && ChannelAt(c, s, i);
    if !Enabled(c, s, 0) {
      assert Enabled(c, s, i);
    } else {
      assert Enabled(c, s, 0);
    }
  }

  /** If the parent's mailbox cannot be claimed, someone is using it. */
  lemma MailboxProgress(c: Config, s: State)
    requires c.Valid() && Sized(c, s) && ProtocolOk(c, s)
    requires s.semS[0] == 0 && s.semR[0] == 0 && RecvPast(s.parent, 0) == RecvPast(s.parent, 2)
    ensures !Stuck(c, s)
  {
    var k := SumWitness(s.workers, Deposited, Claimed, s.parent.cGen);
    assert Enabled(c, s, k + 1);
  }

  /** When all generations are over, a worker in the barrier is never stranded. */
  lemma BarrierProgress(c: Config, s: State, i: int)
    requires c.Valid() && Sized(c, s) && ProtocolOk(c, s) && s.parent.cGen == c.generations
    requires 1 <= i <= c.n && InBarrier(s.workers[i - 1])
    ensures !Stuck(c, s)
  {
    if !Enabled(c, s, i) {
      if s.workers[i - 1].pc.BarWait? {
        CriticalProgress(c, s);
      } else if s.barrierCount < c.n {
        SumShift(s.workers, Arrived, 0);
        var k := SumNegative(s.workers, Arrived, 1);
        assert WorkerAt(c, s, k + 1);
        if !Enabled(c, s, k + 1) { CriticalProgress(c, s); }
      } else {
        PermitProgress(c, s);
      }
    }
  }

  lemma CriticalProgress(c: Config, s: State)
    requires Sized(c, s) && BarrierOk(c, s) && s.gendoneSem == 0
    ensures !Stuck(c, s)
  {
    SumOfEqual(s.workers, Zero, 0);
    var k := SumWitness(s.workers, Zero, InCritical, 0);
    assert Enabled(c, s, k + 1);
  }

  lemma PermitProgress(c: Config, s: State)
    requires Sized(c, s) && BarrierOk(c, s) && s.alldoneSem == 0 && s.barrierCount >= c.n
    ensures !Stuck(c, s)
  {
    SumShift(s.workers, Arrived, 0);
    SumAtMost(s.workers, Arrived, 1);
    SumShift(s.workers, Passed, 0);
    SumAtMost(s.workers, Passed, 1);
    var k :| 0 <= k < c.n && Opening(s.workers[k]);
    assert Enabled(c, s, k + 1);
  }

  lemma ReceivingProgress(c: Config, s: State)
    requires c.Valid() && Sized(c, s) && ProtocolOk(c, s) && s.parent.pc.Recv?
    ensures !Stuck(c, s)
  {
    if !Enabled(c, s, 0) {
      SumShift(s.workers, Deposited, s.parent.cGen);
      var k := SumNegative(s.workers, Deposited, s.parent.cGen + 1);
      assert WorkerAt(c, s, k + 1) && ChannelAt(c, s, k + 1);
      if !Enabled(c, s, k + 1) {
        if s.workers[k].pc.Reply? {
          MailboxProgress(c, s);
        } else {
          BarrierProgress(c, s, k + 1);
        }
      }
    } else {
      assert Enabled(c, s, 0);
    }
  }

  /** A parent waiting for a thread that has not exited waits in vain only in
      one case. */
  lemma JoiningProgress(c: Config, s: State)
    requires c.Valid() && Sized(c, s) && ProtocolOk(c, s) && s.parent.pc.Join?
    requires !Stopped(s.parent) || s.parent.cGen < c.generations || c.n == 1
    ensures !Stuck(c, s)
  {
    var i := s.parent.pc.i;
    if Exited(s.workers[i - 1]) {
      assert Enabled(c, s, 0);
    } else if !Stopped(s.parent) {
      AllReported(c, s);
    } else if s.parent.cGen < c.generations {
      assert WorkerAt(c, s, i) && ChannelAt(c, s, i);
      assert Enabled(c, s, i);
    } else {
      assert WorkerAt(c, s, i) && ChannelAt(c, s, i);
      if InBarrier(s.workers[0]) {
        BarrierProgress(c, s, 1);
      } else {
        SumAtMost(s.workers, Claimed, if s.workers[0].pc.op == Wait then c.generations else c.generations + 1);
        assert Enabled(c, s, 1);
      }
    }
  }

  /** When all ALLDONEs are in, all workers are gone. */
  lemma AllReported(c: Config, s: State)
    requires c.Valid() && Sized(c, s) && ProtocolOk(c, s)
    requires s.parent.allDone == c.n && s.parent.cGen == c.generations && !s.parent.pc.Recv?
    ensures forall k | 0 <= k < c.n :: s.workers[k].pc.ExitEnd?
  {
    forall k | 0 <= k < |s.workers| ensures Deposited(s.workers[k]) <= c.generations + 1 {
      ClaimedBound(c, s, k + 1);
    }
    SumShift(s.workers, Deposited, c.generations);
    SumAtMost(s.workers, Deposited, c.generations + 1);
    forall k | 0 <= k < c.n ensures s.workers[k].pc.ExitEnd? {
      assert WorkerAt(c, s, k + 1);
      ClaimedBound(c, s, k + 1);
    }
  }

  /** Stopped after the last generation, at most one of several workers can
      deliver its ALLDONE. */
  lemma StoppedTooLate(c: Config, s: State)
    requires c.Valid() && Sized(c, s) && ProtocolOk(c, s) && Stopped(s.parent)
    requires s.parent.cGen == c.generations && 2 <= c.n
    ensures !Ended(c, s)
  {
    if Ended(c, s) {
      forall k | 0 <= k < |s.workers| ensures c.generations + 1 <= Claimed(s.workers[k]) {
        assert WorkerAt(c, s, k + 1);
        assert Exited(s.workers[k]);
      }
      SumShift(s.workers, Claimed, c.generations);
      SumAtLeast(s.workers, Claimed, c.generations + 1, 0);
    }
  }

  // ----- deadlock freedom, exactly

  /** Where the parent stopped tells whether the stop came in the last round. */
  lemma StopRound(c: Config, b: Boards, s: State)
    requires c.Valid() && Inv(c, b, s) && (s.parent.pc.Join? || s.parent.pc.Finished?)
    ensures Stopped(s.parent) && s.parent.cGen == c.generations <==> StopsInLastRound(c, b)
  {
  }

  /** A run that can go no further has printed the board after all generations.
      It has ended with every thread gone if and only if there is one worker, or
      the stop test does not come true for the first time after the very last
      generation.  Otherwise it is a deadlock. */
  lemma StuckIsEndedIff(c: Config, b: Boards, s: State)
    requires c.Valid() && Plays(c, b) && Reachable(c, s) && Sized(c, s) && Stuck(c, s)
    ensures Ended(c, s) <==> c.n == 1 || !StopsInLastRound(c, b)
    ensures SameBoard(c.lines, c.columns, s.printed, b(c.generations))
  {
    ReachableInv(c, b, s);
    StuckParent(c, s);
    PrintsFinalBoard(c, b, s);
    StopRound(c, b, s);
    if Stopped(s.parent) && s.parent.cGen == c.generations && 2 <= c.n {
      StoppedTooLate(c, s);
    } else if s.parent.pc.Join? {
      JoiningProgress(c, s);
    }
  }

  lemma StuckParent(c: Config, s: State)
    requires c.Valid() && Sized(c, s) && ProtocolOk(c, s) && Stuck(c, s)
    ensures s.parent.pc.Join? || s.parent.pc.Finished?
  {
    if s.parent.pc.Send? {
      SendingProgress(c, s);
    } else if s.parent.pc.Recv? {
      ReceivingProgress(c, s);
    } else {
      assert !Enabled(c, s, 0);
    }
  }

  // ----- termination

  function Area(rows: int, width: nat): nat
    decreases if rows <= 0 then 0 else rows
  {
    if rows <= 0 then 0 else width + Area(rows - 1, width)
  }

  lemma AreaStep(rows: int, width: nat)
    ensures 0 < rows ==> Area(rows, width) == width + Area(rows - 1, width)
  {
  }

  lemma {:induction false} AreaGrows(rows: int, more: int, width: nat)
    requires rows <= more
    ensures Area(rows, width) <= Area(more, width)
    decreases if more <= 0 then 0 else more
  {
    if rows < more && 0 < more {
      AreaGrows(rows, more - 1, width);
    }
  }

  function CellWork(c: Config): nat
  {
    Area(c.lines, 9 * c.columns)
  }

  /** Steps left in a worker, whatever the others do. */
  function WorkerRank(c: Config, w: Worker): int
  {
    var rest := Area(c.generations - w.gen, CellWork(c) + 6) + c.n + 20;
    match w.pc
    case Unborn => 3 + Area(c.generations, CellWork(c) + 6) + c.n + 20
    case Fetch(first, op) =>
      if first then 3 - Rank(op) + Area(c.generations, CellWork(c) + 6) + c.n + 20
      else 3 - Rank(op) + CellWork(c) + 3 + rest
    case Count(line, column, test, _) =>
      9 - test + 9 * (c.columns - 1 - column) + Area(w.lineTo - line, 9 * c.columns) + 3 + rest
    case Reply(last, op) => if last then 4 - Rank(op) else 3 - Rank(op) + rest
    case BarWait => c.n + 20
    case BarLoad => c.n + 19
    case BarStore(_) => c.n + 18
    case BarPost => c.n + 17
    case BarTest => c.n + 16
    case BarOpen(posts) => c.n - posts + 10
    case BarPass => 5
    case _ => 0
  }

  function RankOfWorker(c: Config): Worker -> int
  {
    w => WorkerRank(c, w)
  }

  function CellsLeft(c: Config, line: int, column: int): int
  {
    c.columns - column + Area(c.lines - 1 - line, c.columns)
  }

  function SendsLeft(c: Config, i: int, op: Op): int
  {
    3 * (c.n - i) + 3 - Rank(op)
  }

  function RoundWork(c: Config): nat
  {
    6 * c.n + 3 * Area(c.lines, c.columns) + 3
  }

  /** Steps left in the parent, whatever the workers do. */
  function ParentRank(c: Config, p: Parent): int
  {
    var cells := Area(c.lines, c.columns);
    var end := 3 * c.n + cells + c.n + 3;
    match p.pc
    case Create(i) => c.n - i + 1 + 3 * c.n + Area(c.generations + 1, RoundWork(c)) + end
    case Send(kind, i, op) =>
      SendsLeft(c, i, op) +
      (match kind
       case RANGE => Area(c.generations + 1, RoundWork(c)) + end
       case GO => 3 * c.n + 3 * cells + 3 + Area(c.generations - p.cGen, RoundWork(c)) + end
       case _ => cells + c.n + 2)
    case Recv(i, op) => SendsLeft(c, i, op) + 3 * cells + 3 + Area(c.generations - p.cGen, RoundWork(c)) + end
    case TestZero(line, column, _) =>
      CellsLeft(c, line, column) + 2 * cells + 2 + Area(c.generations - p.cGen + 1, RoundWork(c)) + end
    case TestSame(line, column, _) =>
      CellsLeft(c, line, column) + cells + 1 + Area(c.generations - p.cGen + 1, RoundWork(c)) + end
    case Update(line, column) => CellsLeft(c, line, column) + Area(c.generations - p.cGen + 1, RoundWork(c)) + end
    case Print(line, column) => CellsLeft(c, line, column) + c.n + 1
    case Join(i) => c.n - i + 1
    case Finished => 0
  }

  ghost function Work(c: Config, s: State): int
  {
    ParentRank(c, s.parent) + Sum(s.workers, RankOfWorker(c), 0)
  }

  lemma ParentRankNotNegative(c: Config, p: Parent)
    requires c.Valid() && ParentOk(c, p)
    ensures 0 <= ParentRank(c, p)
  {
  }

  lemma WorkNotNegative(c: Config, s: State)
    requires c.Valid() && Sized(c, s) && ProtocolOk(c, s)
    ensures 0 <= Work(c, s)
  {
    ParentRankNotNegative(c, s.parent);
    forall k | 0 <= k < |s.workers| ensures 0 <= RankOfWorker(c)(s.workers[k]) {
      assert WorkerAt(c, s, k + 1) && AtBarrierOk(c, s, s.workers[k], Permits(s));
    }
    SumAtLeast(s.workers, RankOfWorker(c), 0, |s.workers|);
  }

  lemma FetchWorks(c: Config, p: Parent, w: Worker, i: int)
    requires c.Valid() && 1 <= i <= c.n && WorkerOk(c, p, w, i) && w.pc.Fetch? && w.pc.op == Post
    ensures WorkerRank(c, AfterFetch(c, w.pc.first, w)) < WorkerRank(c, w)
  {
    PartsTouch(c.lines, c.n, i);
    if !w.pc.first {
      AreaGrows(w.lineTo - w.lineFrom + 1, c.lines, 9 * c.columns);
    }
  }

  lemma WorkerStepWorks(c: Config, s: State, i: int)
    requires c.Valid() && Sized(c, s) && 1 <= i <= c.n && WorkerEnabled(c, s, i) && WorkerAt(c, s, i)
    requires BarrierOk(c, s)
    ensures WorkerRank(c, WorkerStep(c, s, i).workers[i - 1]) < WorkerRank(c, s.workers[i - 1])
  {
    var w := s.workers[i - 1];
    if w.pc.Fetch? {
      if w.pc.op == Post { FetchWorks(c, s.parent, w, i); }
    } else if w.pc.Count? {
      CountWorks(c, s, i);
    } else if w.pc.Reply? {
      ReplyWorks(c, s, i);
    } else {
      assert AtBarrierOk(c, s, w, Permits(s));
      BarrierWorks(c, s, i);
    }
  }

  lemma CountWorks(c: Config, s: State, i: int)
    requires c.Valid() && Sized(c, s) && 1 <= i <= c.n && s.workers[i - 1].pc.Count? && WorkerAt(c, s, i)
    ensures WorkerRank(c, CountStep(c, s, i).workers[i - 1]) < WorkerRank(c, s.workers[i - 1])
  {
  }

  lemma ReportWorks(c: Config, w: Worker)
    requires c.Valid() && w.pc == Reply(false, Post) && w.gen <= c.generations
    ensures WorkerRank(c, w.(pc := LoopHead(c, w.gen + 1), gen := w.gen + 1)) < WorkerRank(c, w)
  {
    hide Area, CellWork;
    AreaStep(c.generations - w.gen, CellWork(c) + 6);
  }

  lemma ReplyWorks(c: Config, s: State, i: int)
    requires c.Valid() && Sized(c, s) && 1 <= i <= c.n && s.workers[i - 1].pc.Reply? && WorkerAt(c, s, i)
    ensures WorkerRank(c, ReplyStep(c, s, i).workers[i - 1]) < WorkerRank(c, s.workers[i - 1])
  {
    hide Area, CellWork, LoopHead;
    var w := s.workers[i - 1];
    if w.pc == Reply(false, Post) {
      ReportWorks(c, w);
    }
  }

  lemma BarrierWorks(c: Config, s: State, i: int)
    requires c.Valid() && Sized(c, s) && 1 <= i <= c.n && InBarrier(s.workers[i - 1])
    requires AtBarrierOk(c, s, s.workers[i - 1], Permits(s))
    ensures WorkerRank(c, BarrierStep(c, s, i).workers[i - 1]) < WorkerRank(c, s.workers[i - 1])
  {
    hide Area, CellWork;
  }

  lemma SendWorks(c: Config, s: State)
    requires c.Valid() && Sized(c, s) && ParentEnabled(c, s) && ParentOk(c, s.parent) && s.parent.pc.Send?
    ensures ParentRank(c, SendStep(c, s).parent) < ParentRank(c, s.parent)
  {
    hide Area, RoundWork, AfterSend, Outgoing;
    var p := s.parent;
    if p.pc.op == Post && p.pc.i == c.n {
      AllSentWorks(c, p);
    } else if p.pc.op == Post {
      assert SendStep(c, s).parent == p.(pc := Send(p.pc.kind, p.pc.i + 1, Wait));
    } else {
      assert SendStep(c, s).parent == p.(pc := Send(p.pc.kind, p.pc.i, if p.pc.op == Wait then Copy else Post));
    }
  }

  lemma AllSentWorks(c: Config, p: Parent)
    requires c.Valid() && ParentOk(c, p) && p.pc.Send? && p.pc.op == Post && p.pc.i == c.n
    ensures ParentRank(c, AfterSend(p)) < ParentRank(c, p)
  {
    hide Area;
    AreaStep(c.generations + 1, RoundWork(c));
    AreaStep(c.lines, c.columns);
  }

  lemma CountedWorks(c: Config, p: Parent)
    requires c.Valid() && ParentOk(c, p) && p.pc.Recv? && p.pc.op == Post
    ensures ParentRank(c, AfterRecv(c, p)) < ParentRank(c, p)
  {
    hide Area, RoundWork;
    AreaStep(c.lines, c.columns);
  }

  lemma RecvWorks(c: Config, s: State)
    requires c.Valid() && Sized(c, s) && ParentEnabled(c, s) && ParentOk(c, s.parent) && s.parent.pc.Recv?
    ensures ParentRank(c, RecvStep(c, s).parent) < ParentRank(c, s.parent)
  {
    hide Area, RoundWork, AfterRecv;
    if s.parent.pc.op == Post { CountedWorks(c, s.parent); }
  }

  lemma TestWorks(c: Config, s: State)
    requires c.Valid() && Sized(c, s) && ParentOk(c, s.parent) && (s.parent.pc.TestZero? || s.parent.pc.TestSame?)
    ensures ParentRank(c, ScanStep(c, s).parent) < ParentRank(c, s.parent)
  {
    hide Area, RoundWork, At;
    AreaStep(c.lines, c.columns);
    AreaStep(c.lines - 1 - s.parent.pc.line, c.columns);
  }

  lemma CopyWorks(c: Config, s: State)
    requires c.Valid() && Sized(c, s) && ParentOk(c, s.parent) && (s.parent.pc.Update? || s.parent.pc.Print?)
    ensures ParentRank(c, ScanStep(c, s).parent) < ParentRank(c, s.parent)
  {
    hide Area, At;
    AreaStep(c.lines, c.columns);
    AreaStep(c.lines - 1 - s.parent.pc.line, c.columns);
    AreaStep(c.generations - s.parent.cGen + 1, RoundWork(c));
  }

  lemma ParentStepWorks(c: Config, s: State)
    requires c.Valid() && Sized(c, s) && ParentEnabled(c, s) && ParentOk(c, s.parent)
    ensures ParentRank(c, ParentStep(c, s).parent) < ParentRank(c, s.parent)
  {
    var pc := s.parent.pc;
    if pc.Send? { SendWorks(c, s); }
    else if pc.Recv? { RecvWorks(c, s); }
    else if pc.TestZero? || pc.TestSame? { TestWorks(c, s); }
    else if !pc.Create? && !pc.Join? { CopyWorks(c, s); }
  }

  lemma CreateWorks(c: Config, s: State)
    requires c.Valid() && Sized(c, s) && s.parent.pc.Create? && ParentOk(c, s.parent)
    requires s.workers[s.parent.pc.i - 1].pc.Unborn?
    ensures Sum(CreateStep(c, s).workers, RankOfWorker(c), 0) == Sum(s.workers, RankOfWorker(c), 0)
  {
    var i := s.parent.pc.i;
    SumUpdate(s.workers, i - 1, CreateStep(c, s).workers[i - 1], RankOfWorker(c), 0);
  }

  lemma WorkerStepWorksInSum(c: Config, s: State, i: int)
    requires c.Valid() && Sized(c, s) && ProtocolOk(c, s) && 1 <= i <= c.n && WorkerEnabled(c, s, i)
    ensures var s' := WorkerStep(c, s, i);
            s'.parent == s.parent && Sum(s'.workers, RankOfWorker(c), 0) < Sum(s.workers, RankOfWorker(c), 0)
  {
    assert WorkerAt(c, s, i);
    WorkerStepWorks(c, s, i);
    WorkerKeepsProtocol(c, s, i);
    SumUpdate(s.workers, i - 1, WorkerStep(c, s, i).workers[i - 1], RankOfWorker(c), 0);
  }

  /** Every step of every thread leaves less to do. */
  lemma StepWorks(c: Config, s: State, t: nat)
    requires c.Valid() && Sized(c, s) && ProtocolOk(c, s) && t <= c.n && Enabled(c, s, t)
    ensures Work(c, Step(c, s, t)) < Work(c, s)
  {
    if t == 0 {
      ParentStepWorks(c, s);
      ParentKeepsProtocol(c, s);
      if s.parent.pc.Create? {
        assert WorkerAt(c, s, s.parent.pc.i);
        CreateWorks(c, s);
      }
    } else {
      WorkerStepWorksInSum(c, s, t);
    }
  }

  /** No run is longer than the work there is at the start. */
  lemma {:induction false} RunsAreBounded(c: Config, schedule: seq<nat>)
    requires c.Valid() && Run(c, schedule).Reached?
    ensures |schedule| + Work(c, Run(c, schedule).state) <= Work(c, InitialState(c))
    ensures 0 <= Work(c, Run(c, schedule).state)
  {
    ReachableProtocol(c, Run(c, schedule).state);
    WorkNotNegative(c, Run(c, schedule).state);
    if schedule != [] {
      var earlier := schedule[..|schedule| - 1];
      RunsAreBounded(c, earlier);
      ReachableProtocol(c, Run(c, earlier).state);
      StepWorks(c, Run(c, earlier).state, schedule[|schedule| - 1]);
    }
  }

  /** Every run can be continued until no thread can move. */
  lemma {:induction false} RunsGetStuck(c: Config, schedule: seq<nat>) returns (whole: seq<nat>)
    requires c.Valid() && Run(c, schedule).Reached?
    ensures schedule <= whole && Run(c, whole).Reached? && Stuck(c, Run(c, whole).state)
    decreases Work(c, InitialState(c)) - |schedule|
  {
    RunsAreBounded(c, schedule);
    var s := Run(c, schedule).state;
    if Stuck(c, s) {
      whole := schedule;
    } else {
      var t: nat :| t <= c.n && Enabled(c, s, t);
      assert (schedule + [t])[..|schedule|] == schedule;
      RunsAreBounded(c, schedule + [t]);
      whole := RunsGetStuck(c, schedule + [t]);
    }
  }

  /** Some interleaving runs until no thread can move. */
  lemma SomeRunGetsStuck(c: Config) returns (s: State)
    requires c.Valid()
    ensures Reachable(c, s) && Sized(c, s) && Stuck(c, s)
  {
    var whole := RunsGetStuck(c, []);
    s := Run(c, whole).state;
  }

  ghost predicate Deadlocked(c: Config, s: State)
  {
    Reachable(c, s) && Sized(c, s) && Stuck(c, s) && !Ended(c, s)
  }

  lemma EndedIsStuck(c: Config, s: State)
    requires Sized(c, s) && Ended(c, s)
    ensures Stuck(c, s)
  {
  }

  /** Hence a deadlock can happen exactly when there are several workers and
      the stop test first holds after the last generation. */
  lemma DeadlockIff(c: Config, b: Boards)
    requires c.Valid() && Plays(c, b)
    ensures (exists s :: Deadlocked(c, s)) <==> 2 <= c.n && StopsInLastRound(c, b)
  {
    var end := SomeRunGetsStuck(c);
    StuckIsEndedIff(c, b, end);
    if 2 <= c.n && StopsInLastRound(c, b) {
      assert Deadlocked(c, end);
    }
    if s :| Deadlocked(c, s) {
      StuckIsEndedIff(c, b, s);
    }
  }

  /** Then it cannot be avoided: no interleaving ends. */
  lemma DeadlockUnavoidable(c: Config, b: Boards, s: State)
    requires c.Valid() && Plays(c, b) && Reachable(c, s) && Sized(c, s)
    requires 2 <= c.n && StopsInLastRound(c, b)
    ensures !Ended(c, s)
  {
    if Ended(c, s) {
      EndedIsStuck(c, s);
      StuckIsEndedIff(c, b, s);
    }
  }

  /** Two workers, one generation, an empty board of two lines. */
  lemma DeadlockExample(b: Boards) returns (s: State)
    requires Plays(Config(2, 1, 2, 1, map[]), b)
    ensures var c := Config(2, 1, 2, 1, map[]);
            c.Valid() && Deadlocked(c, s)
  {
    var c := Config(2, 1, 2, 1, map[]);
    DeadStaysDead(2, 1, b, 0);
    DeadlockIff(c, b);
    s :| Deadlocked(c, s);
  }
}
