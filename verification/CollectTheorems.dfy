/** What every run of the collecting protocol does. */
module CollectTheorems {
  import opened Steps
  import opened Sums
  import opened CollectProtocol

  // ----- consequences

  lemma CountersOrdered<T>(ws: seq<Worker<T>>)
    ensures Sum(ws, Deposited, 0) <= Sum(ws, CopiedIn, 0) <= Sum(ws, Claimed, 0)
  {
    SumGap(ws, Deposited, CopiedIn, 0, 0, 0);
    SumGap(ws, CopiedIn, Claimed, 0, 0, 0);
  }

  /** A worker about to copy into the parent's mailbox finds it drained. */
  lemma CopyFindsRoom<T>(c: Config<T>, s: State<T>, i: int)
    requires Inv(c, s) && c.shared && 1 <= i <= c.n && s.workers[i - 1].pc == Reply(Copy)
    ensures |s.deposited| == ReceivedAll(c, s.pc, 1) == ReceivedAll(c, s.pc, 2)
  {
    CountersOrdered(s.workers);
    SumGap(s.workers, CopiedIn, Claimed, 0, i - 1, i - 1);
  }

  lemma {:induction false} AllZero<T>(ws: seq<Worker<T>>)
    requires forall k | 0 <= k < |ws| :: ws[k].pc.Unborn?
    ensures Sum(ws, Deposited, 0) == Sum(ws, CopiedIn, 0) == Sum(ws, Claimed, 0) == 0
  {
    if ws != [] { AllZero(ws[1..]); }
  }

  lemma InitialInv<T>(c: Config<T>)
    requires 1 <= c.n
    ensures Inv(c, InitialState(c))
  {
    AllZero(InitialState(c).workers);
  }

  // ----- steps of the workers

  lemma SumsAfterPut<T>(ws: seq<Worker<T>>, i: int, w: Worker<T>)
    requires 1 <= i <= |ws|
    ensures Sum(ws[i - 1 := w], Deposited, 0) == Sum(ws, Deposited, 0) - Deposited(ws[i - 1]) + Deposited(w)
    ensures Sum(ws[i - 1 := w], CopiedIn, 0) == Sum(ws, CopiedIn, 0) - CopiedIn(ws[i - 1]) + CopiedIn(w)
    ensures Sum(ws[i - 1 := w], Claimed, 0) == Sum(ws, Claimed, 0) - Claimed(ws[i - 1]) + Claimed(w)
  {
    SumUpdate(ws, i - 1, w, Deposited, 0);
    SumUpdate(ws, i - 1, w, CopiedIn, 0);
    SumUpdate(ws, i - 1, w, Claimed, 0);
  }

  lemma FetchKeepsThread<T>(c: Config<T>, s: State<T>, i: int)
    requires Sized(c, s) && PcOk(c, s.pc) && 1 <= i <= c.n && ThreadAt(c, s, i)
    requires WorkerEnabled(c, s, i) && s.workers[i - 1].pc.Fetch?
    ensures ThreadAt(c, WorkerStep(c, s, i), i)
  {
  }

  lemma ReplyKeepsThread<T>(c: Config<T>, s: State<T>, i: int)
    requires Sized(c, s) && PcOk(c, s.pc) && 1 <= i <= c.n && ThreadAt(c, s, i)
    requires WorkerEnabled(c, s, i) && s.workers[i - 1].pc.Reply?
    ensures ThreadAt(c, WorkerStep(c, s, i), i)
  {
  }

  lemma WorkerKeepsThread<T>(c: Config<T>, s: State<T>, i: int, j: int)
    requires Inv(c, s) && 1 <= i <= c.n && 1 <= j <= c.n && WorkerEnabled(c, s, i)
    ensures ThreadAt(c, WorkerStep(c, s, i), j)
  {
    assert ThreadAt(c, s, i) && ThreadAt(c, s, j);
    if i != j { OthersKeepThread(c, s, i, j); }
    else if s.workers[i - 1].pc.Fetch? { FetchKeepsThread(c, s, i); }
    else { ReplyKeepsThread(c, s, i); }
  }

  lemma OthersKeepThread<T>(c: Config<T>, s: State<T>, i: int, j: int)
    requires Sized(c, s) && 1 <= i <= c.n && 1 <= j <= c.n && i != j && WorkerEnabled(c, s, i) && ThreadAt(c, s, j)
    ensures ThreadAt(c, WorkerStep(c, s, i), j)
  {
    var s' := WorkerStep(c, s, i);
    assert s'.workers[j - 1] == s.workers[j - 1] && s'.pc == s.pc;
    assert s'.semS[j] == s.semS[j] && s'.semR[j] == s.semR[j] && s'.mailboxes[j] == s.mailboxes[j];
  }

  lemma WorkerKeepsCollected<T>(c: Config<T>, s: State<T>, i: int)
    requires Inv(c, s) && 1 <= i <= c.n && WorkerEnabled(c, s, i)
    ensures CollectedOk(c, WorkerStep(c, s, i))
  {
  }

  lemma CopyKeepsShared<T>(c: Config<T>, s: State<T>, i: int)
    requires Inv(c, s) && c.shared && 1 <= i <= c.n && s.workers[i - 1].pc == Reply(Copy)
    ensures SharedOk(c, WorkerStep(c, s, i))
  {
    var s' := WorkerStep(c, s, i);
    assert ThreadAt(c, s, i);
    SumsAfterPut(s.workers, i, s'.workers[i - 1]);
    CopyFindsRoom(c, s, i);
    assert Logged(c, s, i);
    assert s'.deposited == s.deposited + [i];
    forall j | 1 <= j <= c.n ensures Logged(c, s', j) {
      assert Logged(c, s, j);
    }
  }

  lemma QuietWorker<T>(c: Config<T>, s: State<T>, i: int)
    requires Sized(c, s) && c.shared && 1 <= i <= c.n && WorkerEnabled(c, s, i) && s.workers[i - 1].pc != Reply(Copy)
    requires 0 <= s.semR[0] && 0 <= s.semS[0] && ThreadAt(c, s, i)
    ensures var s' := WorkerStep(c, s, i); var w, w' := s.workers[i - 1], s'.workers[i - 1];
            s'.pc == s.pc && s'.workers == s.workers[i - 1 := w'] && s'.deposited == s.deposited
            && s'.mailboxes == s.mailboxes && CopiedIn(w') == CopiedIn(w)
            && 0 <= s'.semR[0] == s.semR[0] + Deposited(w') - Deposited(w)
            && 0 <= s'.semS[0] == s.semS[0] - Claimed(w') + Claimed(w)
  {
  }

  lemma QuietKeepsShared<T>(c: Config<T>, s: State<T>, i: int)
    requires Inv(c, s) && c.shared && 1 <= i <= c.n && WorkerEnabled(c, s, i) && s.workers[i - 1].pc != Reply(Copy)
    ensures SharedOk(c, WorkerStep(c, s, i))
  {
    assert ThreadAt(c, s, i);
    QuietWorker(c, s, i);
    SumsAfterPut(s.workers, i, WorkerStep(c, s, i).workers[i - 1]);
    forall j | 1 <= j <= c.n ensures Logged(c, WorkerStep(c, s, i), j) {
      assert Logged(c, s, j);
    }
  }

  lemma WorkerKeepsShared<T>(c: Config<T>, s: State<T>, i: int)
    requires Inv(c, s) && c.shared && 1 <= i <= c.n && WorkerEnabled(c, s, i)
    ensures SharedOk(c, WorkerStep(c, s, i))
  {
    if s.workers[i - 1].pc == Reply(Copy) { CopyKeepsShared(c, s, i); } else { QuietKeepsShared(c, s, i); }
  }

  // ----- steps of the parent

  lemma CreateKeepsThread<T>(c: Config<T>, s: State<T>, j: int)
    requires Sized(c, s) && 1 <= j <= c.n && ParentEnabled(c, s) && s.pc.Create? && ThreadAt(c, s, j)
    ensures ThreadAt(c, ParentStep(c, s), j)
  {
  }

  lemma SendKeepsThread<T>(c: Config<T>, s: State<T>, j: int)
    requires Sized(c, s) && 1 <= j <= c.n && ParentEnabled(c, s) && s.pc.Send? && ThreadAt(c, s, j)
    ensures ThreadAt(c, ParentStep(c, s), j)
  {
    hide Answer;
  }

  lemma RecvKeepsThread<T>(c: Config<T>, s: State<T>, j: int)
    requires Sized(c, s) && 1 <= j <= c.n && ParentEnabled(c, s) && s.pc.Recv? && ThreadAt(c, s, j)
    ensures ThreadAt(c, ParentStep(c, s), j)
  {
    hide Answer;
  }

  lemma JoinKeepsThread<T>(c: Config<T>, s: State<T>, j: int)
    requires Sized(c, s) && 1 <= j <= c.n && ParentEnabled(c, s) && s.pc.Join? && ThreadAt(c, s, j)
    ensures ThreadAt(c, ParentStep(c, s), j)
  {
  }

  lemma ParentKeepsThread<T>(c: Config<T>, s: State<T>, j: int)
    requires Inv(c, s) && 1 <= j <= c.n && ParentEnabled(c, s)
    ensures ThreadAt(c, ParentStep(c, s), j)
  {
    assert ThreadAt(c, s, j);
    if s.pc.Create? { CreateKeepsThread(c, s, j); }
    else if s.pc.Send? { SendKeepsThread(c, s, j); }
    else if s.pc.Recv? { RecvKeepsThread(c, s, j); }
    else { JoinKeepsThread(c, s, j); }
  }

  lemma RecvKeepsCollected<T>(c: Config<T>, s: State<T>)
    requires Inv(c, s) && ParentEnabled(c, s) && s.pc.Recv?
    ensures CollectedOk(c, ParentStep(c, s)) && PcOk(c, ParentStep(c, s).pc)
  {
    assert ThreadAt(c, s, s.pc.i);
    if c.shared { CountersOrdered(s.workers); }
    if s.pc.op == Post { PostKeepsCollected(c, s); }
  }

  lemma PostKeepsCollected<T>(c: Config<T>, s: State<T>)
    requires Inv(c, s) && s.pc.Recv? && s.pc.op == Post
    ensures CollectedOk(c, ParentStep(c, s)) && PcOk(c, ParentStep(c, s).pc)
  {
    var s' := ParentStep(c, s);
    assert s.message == AllDone(Answer(c, Order(c, s, s.pc.i - 1)));
    assert s'.deposited == s.deposited && s'.collected == s.collected + [s.message.result];
  }

  lemma OtherKeepsCollected<T>(c: Config<T>, s: State<T>)
    requires Inv(c, s) && ParentEnabled(c, s) && !s.pc.Recv?
    ensures CollectedOk(c, ParentStep(c, s)) && PcOk(c, ParentStep(c, s).pc)
  {
    var s' := ParentStep(c, s);
    assert s'.collected == s.collected && s'.deposited == s.deposited;
  }

  lemma ParentKeepsCollected<T>(c: Config<T>, s: State<T>)
    requires Inv(c, s) && ParentEnabled(c, s)
    ensures CollectedOk(c, ParentStep(c, s)) && PcOk(c, ParentStep(c, s).pc)
  {
    if s.pc.Recv? { RecvKeepsCollected(c, s); } else { OtherKeepsCollected(c, s); }
  }

  lemma CreateKeepsShared<T>(c: Config<T>, s: State<T>)
    requires Inv(c, s) && c.shared && ParentEnabled(c, s) && s.pc.Create?
    ensures SharedOk(c, ParentStep(c, s))
  {
    var s' := ParentStep(c, s);
    assert ThreadAt(c, s, s.pc.i);
    SumsAfterPut(s.workers, s.pc.i, s'.workers[s.pc.i - 1]);
    forall j | 1 <= j <= c.n ensures Logged(c, s', j) {
      assert Logged(c, s, j);
    }
  }

  lemma LaterParent<T>(c: Config<T>, s: State<T>)
    requires Inv(c, s) && c.shared && ParentEnabled(c, s) && !s.pc.Create?
    ensures var s' := ParentStep(c, s);
            s'.workers == s.workers && s'.deposited == s.deposited && s'.mailboxes[0] == s.mailboxes[0]
            && s'.semR[0] - s.semR[0] == ReceivedAll(c, s.pc, 0) - ReceivedAll(c, s'.pc, 0)
            && s'.semS[0] - s.semS[0] == ReceivedAll(c, s'.pc, 2) - ReceivedAll(c, s.pc, 2)
            && ReceivedAll(c, s.pc, 1) <= ReceivedAll(c, s'.pc, 1)
            && 0 <= s'.semR[0] && 0 <= s'.semS[0]
  {
  }

  lemma LaterKeepsShared<T>(c: Config<T>, s: State<T>)
    requires Inv(c, s) && c.shared && ParentEnabled(c, s) && !s.pc.Create?
    ensures SharedOk(c, ParentStep(c, s))
  {
    LaterParent(c, s);
    forall j | 1 <= j <= c.n ensures Logged(c, ParentStep(c, s), j) {
      assert Logged(c, s, j);
    }
  }

  lemma ParentKeepsShared<T>(c: Config<T>, s: State<T>)
    requires Inv(c, s) && c.shared && ParentEnabled(c, s)
    ensures SharedOk(c, ParentStep(c, s))
  {
    if s.pc.Create? { CreateKeepsShared(c, s); } else { LaterKeepsShared(c, s); }
  }

  lemma StepKeepsInv<T>(c: Config<T>, s: State<T>, t: nat)
    requires 1 <= c.n && Inv(c, s) && t <= c.n && Enabled(c, s, t)
    ensures Inv(c, Step(c, s, t))
  {
    if t == 0 {
      forall j | 1 <= j <= c.n ensures ThreadAt(c, Step(c, s, t), j) { ParentKeepsThread(c, s, j); }
      ParentKeepsCollected(c, s);
      if c.shared { ParentKeepsShared(c, s); }
    } else {
      forall j | 1 <= j <= c.n ensures ThreadAt(c, Step(c, s, t), j) { WorkerKeepsThread(c, s, t, j); }
      WorkerKeepsCollected(c, s, t);
      if c.shared { WorkerKeepsShared(c, s, t); }
    }
  }

  lemma {:induction false} RunKeepsInv<T>(c: Config<T>, schedule: seq<nat>)
    requires 1 <= c.n && Run(c, schedule).Reached?
    ensures Inv(c, Run(c, schedule).state)
    decreases |schedule|
  {
    if schedule == [] {
      InitialInv(c);
    } else {
      var earlier := schedule[..|schedule| - 1];
      RunKeepsInv(c, earlier);
      StepKeepsInv(c, Run(c, earlier).state, schedule[|schedule| - 1]);
    }
  }

  lemma ReachableInv<T>(c: Config<T>, s: State<T>)
    requires 1 <= c.n && Reachable(c, s)
    ensures Inv(c, s)
  {
    var schedule :| Run(c, schedule) == Reached(s);
    RunKeepsInv(c, schedule);
  }

  // ----- the answers

  /** In the string scan the parent ends up with the answers in thread order. */
  lemma OwnBoxesInOrder<T>(c: Config<T>, s: State<T>)
    requires 1 <= c.n && Reachable(c, s) && !c.shared && s.pc.Finished?
    ensures |s.collected| == c.n && forall k | 0 <= k < c.n :: s.collected[k] == Answer(c, k + 1)
  {
    ReachableInv(c, s);
  }

  /** In the parallel sum it ends up with every thread's answer exactly once, in
      the order of deposit, whatever that is. */
  lemma SharedBoxOnce<T>(c: Config<T>, s: State<T>)
    requires 1 <= c.n && Reachable(c, s) && c.shared && (s.pc.Join? || s.pc.Finished?)
    ensures |s.collected| == |s.deposited| == c.n && Distinct(s.deposited)
    ensures forall k | 0 <= k < c.n :: 1 <= s.deposited[k] <= c.n && s.collected[k] == Answer(c, s.deposited[k])
  {
    hide ThreadAt, Answer, Distinct;
    ReachableInv(c, s);
    CountersOrdered(s.workers);
    SumShift(s.workers, CopiedIn, 0);
    SumAtMost(s.workers, CopiedIn, 1);
  }

  /** No thread receives a message meant for the other side: the parent never
      reads back a range, a worker never an answer. */
  lemma NoCrossTalk<T>(c: Config<T>, s: State<T>, i: int)
    requires 1 <= c.n && Reachable(c, s) && 1 <= i <= c.n
    ensures Sized(c, s) && !s.workers[i - 1].pc.Failed?
    ensures s.workers[i - 1].pc == Fetch(Post) ==> s.workers[i - 1].message == Range(c.range(i).0, c.range(i).1)
    ensures s.pc.Recv? && s.pc.op == Post ==> s.message.AllDone?
  {
    ReachableInv(c, s);
    assert ThreadAt(c, s, i);
  }

  // ----- deadlock freedom and termination

  lemma SharedProgress<T>(c: Config<T>, s: State<T>)
    requires Inv(c, s) && c.shared && s.semS[0] == 0 && s.semR[0] == 0
    requires ReceivedAll(c, s.pc, 0) == ReceivedAll(c, s.pc, 2)
    ensures !Stuck(c, s)
  {
    var k := SumWitness(s.workers, Deposited, Claimed, 0);
    assert Enabled(c, s, k + 1);
  }

  /** A worker that has not exited can move, or the parent's mailbox is in use. */
  lemma WorkerProgress<T>(c: Config<T>, s: State<T>, i: int)
    requires Inv(c, s) && 1 <= i <= c.n && !s.workers[i - 1].pc.Exited?
    requires s.pc.Recv? || s.pc.Join?
    requires c.shared && s.pc.Recv? ==> s.semR[0] == 0 && s.pc.op == Wait
    ensures !Stuck(c, s)
  {
    assert ThreadAt(c, s, i);
    if !Enabled(c, s, i) && c.shared {
      CountersOrdered(s.workers);
      SumShift(s.workers, Claimed, 0);
      SumAtMost(s.workers, Claimed, 1);
      if s.pc.Recv? { SharedProgress(c, s); }
    }
  }

  lemma SendProgress<T>(c: Config<T>, s: State<T>)
    requires Inv(c, s) && (s.pc.Send? || s.pc.Create?)
    ensures !Stuck(c, s)
  {
    assert ThreadAt(c, s, s.pc.i);
    assert Enabled(c, s, 0);
  }

  lemma OwnBoxProgress<T>(c: Config<T>, s: State<T>)
    requires Inv(c, s) && !c.shared && s.pc.Recv?
    ensures !Stuck(c, s)
  {
    assert ThreadAt(c, s, s.pc.i);
    assert Enabled(c, s, 0);
  }

  lemma SharedBoxProgress<T>(c: Config<T>, s: State<T>)
    requires Inv(c, s) && c.shared && s.pc.Recv?
    ensures !Stuck(c, s)
  {
    if !Enabled(c, s, 0) {
      SumShift(s.workers, Deposited, 0);
      var k := SumNegative(s.workers, Deposited, 1);
      WorkerProgress(c, s, k + 1);
    }
  }

  lemma JoinProgress<T>(c: Config<T>, s: State<T>)
    requires Inv(c, s) && s.pc.Join?
    ensures !Stuck(c, s)
  {
    if !Enabled(c, s, 0) {
      WorkerProgress(c, s, s.pc.i);
    }
  }

  lemma StuckParent<T>(c: Config<T>, s: State<T>)
    requires Inv(c, s) && Stuck(c, s)
    ensures s.pc.Finished?
  {
    if s.pc.Send? || s.pc.Create? { SendProgress(c, s); }
    else if s.pc.Join? { JoinProgress(c, s); }
    else if s.pc.Recv? && c.shared { SharedBoxProgress(c, s); }
    else if s.pc.Recv? { OwnBoxProgress(c, s); }
  }

  /** A run that can go no further has ended with every thread gone. */
  lemma NoDeadlock<T>(c: Config<T>, s: State<T>)
    requires 1 <= c.n && Reachable(c, s) && Sized(c, s) && Stuck(c, s)
    ensures Ended(c, s)
  {
    ReachableInv(c, s);
    StuckParent(c, s);
    forall k | 0 <= k < c.n ensures s.workers[k].pc.Exited? {
      assert ThreadAt(c, s, k + 1);
    }
  }

  /** Steps left in a thread, whatever the others do. */
  function StepsLeft(op: Op): int
  {
    match op
    case Wait => 3
    case Copy => 2
    case Post => 1
  }

  function WorkerWork<T>(w: Worker<T>): int
  {
    match w.pc
    case Unborn => 6
    case Fetch(op) => StepsLeft(op) + 3
    case Reply(op) => StepsLeft(op)
    case _ => 0
  }

  function ParentWork<T>(c: Config<T>, pc: ParentPc): int
  {
    match pc
    case Create(i) => 7 * c.n + c.n - i + 1
    case Send(i, op) => 4 * c.n + 3 * (c.n - i) + StepsLeft(op)
    case Recv(i, op) => 3 * (c.n - i) + StepsLeft(op) + (if c.shared then c.n else 0)
    case Join(i) => c.n - i + 1 + (if c.shared then 0 else 3 * c.n)
    case Finished => 0
  }

  ghost function Work<T>(c: Config<T>, s: State<T>): int
  {
    ParentWork(c, s.pc) + Sum(s.workers, WorkerWork, 0)
  }

  lemma WorkerStepWorks<T>(c: Config<T>, s: State<T>, i: int)
    requires Sized(c, s) && 1 <= i <= c.n && WorkerEnabled(c, s, i)
    ensures Work(c, WorkerStep(c, s, i)) < Work(c, s)
  {
    var s' := WorkerStep(c, s, i);
    assert s'.pc == s.pc && s'.workers == s.workers[i - 1 := s'.workers[i - 1]];
    SumUpdate(s.workers, i - 1, s'.workers[i - 1], WorkerWork, 0);
  }

  lemma ParentStepWorks<T>(c: Config<T>, s: State<T>)
    requires Sized(c, s) && PcOk(c, s.pc) && ParentEnabled(c, s)
    ensures ParentWork(c, ParentStep(c, s).pc) < ParentWork(c, s.pc)
    ensures !s.pc.Create? ==> ParentStep(c, s).workers == s.workers
  {
  }

  lemma StepWorks<T>(c: Config<T>, s: State<T>, t: nat)
    requires Inv(c, s) && t <= c.n && Enabled(c, s, t)
    ensures Work(c, Step(c, s, t)) < Work(c, s)
  {
    if t != 0 {
      WorkerStepWorks(c, s, t);
    } else {
      ParentStepWorks(c, s);
      if s.pc.Create? {
        assert ThreadAt(c, s, s.pc.i);
        SumUpdate(s.workers, s.pc.i - 1, ParentStep(c, s).workers[s.pc.i - 1], WorkerWork, 0);
      }
    }
  }

  /** No run takes more than the steps there are at the start. */
  lemma {:induction false} RunsAreBounded<T>(c: Config<T>, schedule: seq<nat>)
    requires 1 <= c.n && Run(c, schedule).Reached?
    ensures |schedule| + Work(c, Run(c, schedule).state) <= Work(c, InitialState(c))
    ensures 0 <= Work(c, Run(c, schedule).state)
    decreases |schedule|
  {
    hide WorkerStep, ParentStep, ThreadAt, CollectedOk, SharedOk;
    RunKeepsInv(c, schedule);
    var s := Run(c, schedule).state;
    SumAtLeast(s.workers, WorkerWork, 0, c.n);
    if schedule != [] {
      var earlier := schedule[..|schedule| - 1];
      RunsAreBounded(c, earlier);
      RunKeepsInv(c, earlier);
      StepWorks(c, Run(c, earlier).state, schedule[|schedule| - 1]);
    }
  }

  /** Every run can be continued until it has ended with every thread gone. */
  lemma {:induction false} RunsEnd<T>(c: Config<T>, schedule: seq<nat>) returns (whole: seq<nat>)
    requires 1 <= c.n && Run(c, schedule).Reached?
    ensures schedule <= whole && Run(c, whole).Reached? && Ended(c, Run(c, whole).state)
    decreases Work(c, InitialState(c)) - |schedule|
  {
    RunsAreBounded(c, schedule);
    var s := Run(c, schedule).state;
    if Stuck(c, s) {
      whole := schedule;
      NoDeadlock(c, s);
    } else {
      var t: nat :| t <= c.n && Enabled(c, s, t);
      assert (schedule + [t])[..|schedule|] == schedule;
      RunsAreBounded(c, schedule + [t]);
      whole := RunsEnd(c, schedule + [t]);
    }
  }
}
