/** The steps of the workers keep the invariant. */
module LifeSafety {
  import opened LifeBoard
  import opened LifeProtocol
  import opened LifeInvariant
  import opened Partition
  import opened Steps
  import opened Sums

  // ----- consequences of the invariant

  /** A worker is computing or reporting a generation. */
  predicate Busy(w: Worker)
  {
    w.pc.Count? || (w.pc.Reply? && !w.pc.last)
  }

  /** The parent has posted GO of this round to worker i and not left the round. */
  predicate RoundOpen(c: Config, p: Parent, i: int)
  {
    Writing(c, p) && (p.pc.Recv? || (p.pc.Send? && p.pc.kind == GO && i < p.pc.i))
  }

  lemma BusyInRound(c: Config, s: State, i: int)
    requires Sized(c, s) && 1 <= i <= c.n
    requires ParentOk(c, s.parent) && WorkerAt(c, s, i) && ChannelAt(c, s, i)
    ensures Busy(s.workers[i - 1]) ==> s.workers[i - 1].gen == s.parent.cGen + 1 && RoundOpen(c, s.parent, i)
    ensures s.workers[i - 1].gen <= s.parent.cGen + 2
    ensures Passed(s.workers[i - 1]) == 0 ==> Claimed(s.workers[i - 1]) <= s.parent.cGen + 1
  {
  }

  lemma FullHouse(c: Config, s: State)
    requires Sized(c, s) && BarrierOk(c, s) && s.barrierCount == c.n
    ensures AllArrived(s)
  {
    SumShift(s.workers, Arrived, 0);
    SumAtMost(s.workers, Arrived, 1);
  }

  lemma PassedNeedsAll(c: Config, s: State, i: int)
    requires Sized(c, s) && 1 <= i <= c.n && BarrierOk(c, s) && Passed(s.workers[i - 1]) == 1
    ensures AllArrived(s) && s.barrierCount == c.n
  {
    SumAtLeast(s.workers, Passed, 0, i - 1);
    FullHouse(c, s);
  }

  /** An ALLDONE gets past the wait on the parent's mailbox only after the
      parent has received every GENDONE of the last generation. */
  lemma AllDoneComesLate(c: Config, s: State, i: int)
    requires c.Valid() && Sized(c, s) && 1 <= i <= c.n
    requires ParentOk(c, s.parent) && ThreadsOk(c, s) && CollectOk(c, s) && BarrierOk(c, s)
    requires Passed(s.workers[i - 1]) == 1 && Claimed(s.workers[i - 1]) == c.generations + 1
    ensures s.parent.cGen == c.generations
  {
    PassedNeedsAll(c, s, i);
    var b := s.parent.cGen;
    if b < c.generations {
      forall k | 0 <= k < |s.workers| ensures b + 1 <= Claimed(s.workers[k]) {
        assert WorkerAt(c, s, k + 1);
        assert Arrived(s.workers[k]) == 1;
      }
      SumAtLeast(s.workers, Claimed, b + 1, i - 1);
      SumShift(s.workers, Claimed, b);
    }
  }

  /** No worker is more than one message ahead of the generations completed. */
  lemma ClaimedBound(c: Config, s: State, i: int)
    requires c.Valid() && Sized(c, s) && ProtocolOk(c, s) && 1 <= i <= c.n
    ensures Deposited(s.workers[i - 1]) <= CopiedIn(s.workers[i - 1]) <= Claimed(s.workers[i - 1]) <= s.parent.cGen + 1
  {
    assert WorkerAt(c, s, i) && ChannelAt(c, s, i);
    BusyInRound(c, s, i);
    var w := s.workers[i - 1];
    if Passed(w) == 1 {
      if Claimed(w) == c.generations + 1 {
        AllDoneComesLate(c, s, i);
      } else {
        PassedNeedsAll(c, s, i);
      }
    }
  }

  /** When the parent takes the last message of a round, every worker has
      deposited exactly one in it, and its mailbox is drained. */
  lemma RoundComplete(c: Config, s: State)
    requires c.Valid() && Sized(c, s) && ProtocolOk(c, s)
    requires s.parent.pc.Recv? && s.parent.pc.i == c.n && s.parent.pc.op != Wait
    ensures forall k | 0 <= k < c.n :: Deposited(s.workers[k]) == CopiedIn(s.workers[k]) == s.parent.cGen + 1
    ensures Sum(s.workers, CopiedIn, s.parent.cGen) == c.n
    ensures forall k | 0 <= k < c.n :: s.workers[k].gen == s.parent.cGen + (if s.parent.cGen < c.generations then 2 else 1)
    ensures s.parent.cGen == c.generations ==> forall k | 0 <= k < c.n :: s.workers[k].pc.ExitEnd?
  {
    var b := s.parent.cGen;
    forall k | 0 <= k < |s.workers|
      ensures Deposited(s.workers[k]) <= b + 1 && CopiedIn(s.workers[k]) <= b + 1
      ensures Deposited(s.workers[k]) <= CopiedIn(s.workers[k])
    {
      ClaimedBound(c, s, k + 1);
    }
    SumShift(s.workers, Deposited, b);
    SumShift(s.workers, CopiedIn, b);
    SumAtMost(s.workers, Deposited, b + 1);
    SumAtMost(s.workers, CopiedIn, b + 1);
    SumGap(s.workers, Deposited, CopiedIn, b, 0, 0);
    forall k | 0 <= k < c.n
      ensures Deposited(s.workers[k]) == CopiedIn(s.workers[k]) == b + 1
      ensures s.workers[k].gen == b + (if b < c.generations then 2 else 1)
      ensures b == c.generations ==> s.workers[k].pc.ExitEnd?
    {
      assert WorkerAt(c, s, k + 1);
      if s.workers[k].pc.ExitEnd? && b < c.generations { AllDoneComesLate(c, s, k + 1); }
    }
  }

  // ----- the start

  lemma SumOfEqual(ws: seq<Worker>, f: Worker -> int, b: int)
    requires forall k | 0 <= k < |ws| :: f(ws[k]) == b
    ensures Sum(ws, f, b) == 0
  {
    SumAtMost(ws, f, b);
    SumAtLeast(ws, f, b, |ws|);
  }

  lemma InitialProtocol(c: Config)
    requires c.Valid()
    ensures ProtocolOk(c, InitialState(c))
  {
    var s := InitialState(c);
    SumOfEqual(s.workers, Deposited, 0);
    SumOfEqual(s.workers, CopiedIn, 0);
    SumOfEqual(s.workers, Claimed, 0);
    SumOfEqual(s.workers, InCritical, 0);
    SumOfEqual(s.workers, Arrived, 0);
    SumOfEqual(s.workers, Passed, 0);
  }

  // ----- one worker and its own mailbox

  lemma FetchWaits(c: Config, p: Parent, w: Worker, i: int, semS: int, semR: int, box: Msg)
    requires c.Valid() && ParentOk(c, p) && WorkerOk(c, p, w, i) && ChannelOk(c, p, w, i, semS, semR, box)
    requires w.pc.Fetch? && w.pc.op == Wait && 0 < semR
    ensures var w' := w.(pc := Fetch(w.pc.first, Copy));
            WorkerOk(c, p, w', i) && ChannelOk(c, p, w', i, semS, semR - 1, box)
  {
  }

  lemma FetchCopies(c: Config, p: Parent, w: Worker, i: int, semS: int, semR: int, box: Msg)
    requires c.Valid() && 1 <= i <= c.n && ParentOk(c, p) && WorkerOk(c, p, w, i) && ChannelOk(c, p, w, i, semS, semR, box)
    requires w.pc.Fetch? && w.pc.op == Copy
    ensures var w' := w.(pc := Fetch(w.pc.first, Post), message := box);
            WorkerOk(c, p, w', i) && ChannelOk(c, p, w', i, semS, semR, box)
  {
  }

  lemma FetchPosts(c: Config, p: Parent, w: Worker, i: int, semS: int, semR: int, box: Msg)
    requires c.Valid() && 1 <= i <= c.n && ParentOk(c, p) && WorkerOk(c, p, w, i) && ChannelOk(c, p, w, i, semS, semR, box)
    requires w.pc.Fetch? && w.pc.op == Post
    ensures var w' := AfterFetch(c, w.pc.first, w);
            WorkerOk(c, p, w', i) && ChannelOk(c, p, w', i, semS + 1, semR, box)
  {
    PartEmptyIff(c.lines, c.n, i);
  }

  lemma LaterSteps(c: Config, p: Parent, w: Worker, i: int, w': Worker)
    requires c.Valid() && 1 <= i <= c.n && WorkerOk(c, p, w, i)
    requires Released(w') == Released(w) && Taken(w') == Taken(w) && CopiedOut(w') == CopiedOut(w)
    requires w'.lineFrom == w.lineFrom && w'.lineTo == w.lineTo
    requires w.pc.Count? ==>
               w'.gen == w.gen && (w'.pc == Reply(false, Wait)
               || (w'.pc.Count? && w.lineFrom <= w'.pc.line <= w.lineTo && 0 <= w'.pc.column < c.columns && w'.pc.test <= 8))
    requires w.pc.Reply? && !w.pc.last ==>
               (w'.gen == w.gen && w'.pc.Reply? && !w'.pc.last) || (w'.gen == w.gen + 1 && w'.pc == LoopHead(c, w'.gen))
    requires InBarrier(w) || (w.pc.Reply? && w.pc.last) ==>
               w'.gen == w.gen && (InBarrier(w') || (w'.pc.Reply? && w'.pc.last) || w'.pc.ExitEnd?)
    requires w.pc.Count? || w.pc.Reply? || InBarrier(w)
    ensures WorkerOk(c, p, w', i)
  {
  }

  // ----- a worker's step as a whole

  /** s' differs from s only in worker i, its mailbox, the parent's mailbox, the
      barrier and the grid being written. */
  ghost predicate OnlyWorker(c: Config, s: State, s': State, i: int)
    requires 1 <= i <= c.n
  {
    Sized(c, s) && Sized(c, s') && s'.parent == s.parent && s'.before == s.before && s'.printed == s.printed
    && s'.workers == s.workers[i - 1 := s'.workers[i - 1]]
    && (forall j | 1 <= j <= c.n && j != i ::
          s'.semR[j] == s.semR[j] && s'.semS[j] == s.semS[j] && s'.mailboxes[j] == s.mailboxes[j])
    && (!s.workers[i - 1].pc.Reply? ==>
          s'.semR[0] == s.semR[0] && s'.semS[0] == s.semS[0] && s'.mailboxes[0] == s.mailboxes[0])
    && (!s.workers[i - 1].pc.Fetch? ==>
          s'.semR[i] == s.semR[i] && s'.semS[i] == s.semS[i] && s'.mailboxes[i] == s.mailboxes[i])
    && (!InBarrier(s.workers[i - 1]) ==>
          s'.gendoneSem == s.gendoneSem && s'.alldoneSem == s.alldoneSem && s'.barrierCount == s.barrierCount)
    && (!s.workers[i - 1].pc.Count? ==> s'.after == s.after)
  }

  lemma FetchFrame(c: Config, s: State, i: int)
    requires Sized(c, s) && 1 <= i <= c.n && WorkerEnabled(c, s, i) && s.workers[i - 1].pc.Fetch?
    ensures OnlyWorker(c, s, FetchStep(c, s, i), i)
  {
  }

  lemma CountFrame(c: Config, s: State, i: int)
    requires Sized(c, s) && 1 <= i <= c.n && WorkerEnabled(c, s, i) && s.workers[i - 1].pc.Count?
    ensures OnlyWorker(c, s, CountStep(c, s, i), i)
  {
  }

  lemma ReplyFrame(c: Config, s: State, i: int)
    requires Sized(c, s) && 1 <= i <= c.n && WorkerEnabled(c, s, i) && s.workers[i - 1].pc.Reply?
    ensures OnlyWorker(c, s, ReplyStep(c, s, i), i)
  {
    hide LoopHead;
  }

  lemma BarrierFrame(c: Config, s: State, i: int)
    requires Sized(c, s) && 1 <= i <= c.n && WorkerEnabled(c, s, i) && InBarrier(s.workers[i - 1])
    ensures OnlyWorker(c, s, BarrierStep(c, s, i), i)
  {
  }

  lemma FetchKeeps(c: Config, s: State, i: int)
    requires c.Valid() && Sized(c, s) && 1 <= i <= c.n && WorkerEnabled(c, s, i) && s.workers[i - 1].pc.Fetch?
    requires ParentOk(c, s.parent) && WorkerAt(c, s, i) && ChannelAt(c, s, i)
    ensures var s' := FetchStep(c, s, i);
            OnlyWorker(c, s, s', i) && WorkerAt(c, s', i) && ChannelAt(c, s', i)
  {
    hide WorkerOk, ChannelOk, AfterFetch;
    FetchFrame(c, s, i);
    var w := s.workers[i - 1];
    match w.pc.op
    case Wait => FetchWaits(c, s.parent, w, i, s.semS[i], s.semR[i], s.mailboxes[i]);
    case Copy => FetchCopies(c, s.parent, w, i, s.semS[i], s.semR[i], s.mailboxes[i]);
    case Post => FetchPosts(c, s.parent, w, i, s.semS[i], s.semR[i], s.mailboxes[i]);
  }

  lemma CountKeeps(c: Config, s: State, i: int)
    requires c.Valid() && Sized(c, s) && 1 <= i <= c.n && WorkerEnabled(c, s, i) && s.workers[i - 1].pc.Count?
    requires WorkerAt(c, s, i) && ChannelAt(c, s, i)
    ensures var s' := CountStep(c, s, i);
            OnlyWorker(c, s, s', i) && WorkerAt(c, s', i) && ChannelAt(c, s', i)
  {
    CountFrame(c, s, i);
    LaterSteps(c, s.parent, s.workers[i - 1], i, CountStep(c, s, i).workers[i - 1]);
  }

  lemma ReplyKeeps(c: Config, s: State, i: int)
    requires c.Valid() && Sized(c, s) && 1 <= i <= c.n && WorkerEnabled(c, s, i) && s.workers[i - 1].pc.Reply?
    requires WorkerAt(c, s, i) && ChannelAt(c, s, i)
    ensures var s' := ReplyStep(c, s, i);
            OnlyWorker(c, s, s', i) && WorkerAt(c, s', i) && ChannelAt(c, s', i)
  {
    ReplyFrame(c, s, i);
    LaterSteps(c, s.parent, s.workers[i - 1], i, ReplyStep(c, s, i).workers[i - 1]);
  }

  lemma BarrierKeeps(c: Config, s: State, i: int)
    requires c.Valid() && Sized(c, s) && 1 <= i <= c.n && WorkerEnabled(c, s, i) && InBarrier(s.workers[i - 1])
    requires WorkerAt(c, s, i) && ChannelAt(c, s, i)
    ensures var s' := BarrierStep(c, s, i);
            OnlyWorker(c, s, s', i) && WorkerAt(c, s', i) && ChannelAt(c, s', i)
  {
    BarrierFrame(c, s, i);
    LaterSteps(c, s.parent, s.workers[i - 1], i, BarrierStep(c, s, i).workers[i - 1]);
  }

  lemma WorkerKeepsOwn(c: Config, s: State, i: int)
    requires c.Valid() && Sized(c, s) && 1 <= i <= c.n && WorkerEnabled(c, s, i)
    requires ParentOk(c, s.parent) && WorkerAt(c, s, i) && ChannelAt(c, s, i)
    ensures var s' := WorkerStep(c, s, i);
            OnlyWorker(c, s, s', i) && WorkerAt(c, s', i) && ChannelAt(c, s', i)
  {
    var pc := s.workers[i - 1].pc;
    if pc.Fetch? { FetchKeeps(c, s, i); }
    else if pc.Count? { CountKeeps(c, s, i); }
    else if pc.Reply? { ReplyKeeps(c, s, i); }
    else { BarrierKeeps(c, s, i); }
  }

  lemma OthersKeep(c: Config, s: State, s': State, i: int)
    requires 1 <= i <= c.n && OnlyWorker(c, s, s', i)
    requires ThreadsOk(c, s) && WorkerAt(c, s', i) && ChannelAt(c, s', i)
    ensures ThreadsOk(c, s')
  {
    forall j | 1 <= j <= c.n ensures WorkerAt(c, s', j) && ChannelAt(c, s', j) {
      if j != i {
        assert WorkerAt(c, s, j) && ChannelAt(c, s, j);
        assert s'.workers[j - 1] == s.workers[j - 1];
      }
    }
  }

  // ----- the parent's mailbox

  /** How replacing worker i changes each sum. */
  lemma SumsAfterPut(s: State, i: int, w: Worker, b: int)
    requires 1 <= i <= |s.workers|
    ensures Sum(s.workers[i - 1 := w], Deposited, b) == Sum(s.workers, Deposited, b) - Deposited(s.workers[i - 1]) + Deposited(w)
    ensures Sum(s.workers[i - 1 := w], CopiedIn, b) == Sum(s.workers, CopiedIn, b) - CopiedIn(s.workers[i - 1]) + CopiedIn(w)
    ensures Sum(s.workers[i - 1 := w], Claimed, b) == Sum(s.workers, Claimed, b) - Claimed(s.workers[i - 1]) + Claimed(w)
  {
    SumUpdate(s.workers, i - 1, w, Deposited, b);
    SumUpdate(s.workers, i - 1, w, CopiedIn, b);
    SumUpdate(s.workers, i - 1, w, Claimed, b);
  }

  /** A worker past the wait on the parent's mailbox holds the message of the round. */
  lemma ReplyFitsRound(c: Config, s: State, i: int)
    requires c.Valid() && Sized(c, s) && 1 <= i <= c.n && ProtocolOk(c, s)
    requires s.workers[i - 1].pc.Reply? && s.workers[i - 1].pc.op != Wait
    ensures ReplyKind(c, s.parent) == if s.workers[i - 1].pc.last then ALLDONE else GENDONE
  {
    assert WorkerAt(c, s, i) && ChannelAt(c, s, i);
    if s.workers[i - 1].pc.last {
      AllDoneComesLate(c, s, i);
    } else {
      BusyInRound(c, s, i);
    }
  }

  lemma QuietKeepsCollect(c: Config, s: State, s': State, i: int)
    requires 1 <= i <= c.n && OnlyWorker(c, s, s', i) && CollectOk(c, s)
    requires !s.workers[i - 1].pc.Reply?
    requires Deposited(s'.workers[i - 1]) == CopiedIn(s'.workers[i - 1]) == Claimed(s'.workers[i - 1]) == Deposited(s.workers[i - 1])
    ensures CollectOk(c, s')
  {
    SumsAfterPut(s, i, s'.workers[i - 1], s.parent.cGen);
  }

  lemma ReplyKeepsCollect(c: Config, s: State, i: int)
    requires c.Valid() && Sized(c, s) && 1 <= i <= c.n && WorkerEnabled(c, s, i) && s.workers[i - 1].pc.Reply?
    requires CollectOk(c, s)
    requires s.workers[i - 1].pc.op != Wait ==>
               ReplyKind(c, s.parent) == if s.workers[i - 1].pc.last then ALLDONE else GENDONE
    ensures CollectOk(c, ReplyStep(c, s, i))
  {
    var s' := ReplyStep(c, s, i);
    SumsAfterPut(s, i, s'.workers[i - 1], s.parent.cGen);
  }

  lemma WorkerKeepsCollect(c: Config, s: State, i: int)
    requires c.Valid() && Sized(c, s) && 1 <= i <= c.n && WorkerEnabled(c, s, i)
    requires ProtocolOk(c, s) && OnlyWorker(c, s, WorkerStep(c, s, i), i)
    ensures CollectOk(c, WorkerStep(c, s, i))
  {
    assert WorkerAt(c, s, i);
    if s.workers[i - 1].pc.Reply? {
      if s.workers[i - 1].pc.op != Wait { ReplyFitsRound(c, s, i); }
      ReplyKeepsCollect(c, s, i);
    } else {
      QuietStepCounters(c, s, i);
      QuietKeepsCollect(c, s, WorkerStep(c, s, i), i);
    }
  }

  /** Only a Reply step changes what is counted in the parent's mailbox. */
  lemma QuietStepCounters(c: Config, s: State, i: int)
    requires c.Valid() && Sized(c, s) && 1 <= i <= c.n && WorkerEnabled(c, s, i)
    requires WorkerAt(c, s, i) && !s.workers[i - 1].pc.Reply?
    ensures var w' := WorkerStep(c, s, i).workers[i - 1];
            Deposited(w') == CopiedIn(w') == Claimed(w') == Deposited(s.workers[i - 1])
  {
    var pc := s.workers[i - 1].pc;
    if pc.Fetch? { FetchCounters(c, s, i); }
    else if pc.Count? { CountCounters(c, s, i); }
    else { BarrierCounters(c, s, i); }
  }

  lemma AfterFetchCounters(c: Config, w: Worker)
    requires c.Valid() && w.pc.Fetch? && w.pc.op == Post && (w.pc.first ==> w.gen == 1)
    ensures var w' := AfterFetch(c, w.pc.first, w);
            Deposited(w') == CopiedIn(w') == Claimed(w') == Deposited(w)
            && !InBarrier(w') && Arrived(w') == Arrived(w) && Passed(w') == Passed(w)
  {
  }

  lemma FetchCounters(c: Config, s: State, i: int)
    requires c.Valid() && Sized(c, s) && 1 <= i <= c.n && WorkerAt(c, s, i) && s.workers[i - 1].pc.Fetch?
    ensures var w, w' := s.workers[i - 1], FetchStep(c, s, i).workers[i - 1];
            Deposited(w') == CopiedIn(w') == Claimed(w') == Deposited(w)
            && !InBarrier(w') && Arrived(w') == Arrived(w) && Passed(w') == Passed(w)
  {
    hide AfterFetch;
    var w := s.workers[i - 1];
    if w.pc.op == Post { AfterFetchCounters(c, w); }
  }

  lemma CountCounters(c: Config, s: State, i: int)
    requires Sized(c, s) && 1 <= i <= c.n && s.workers[i - 1].pc.Count?
    ensures var w, w' := s.workers[i - 1], CountStep(c, s, i).workers[i - 1];
            Deposited(w') == CopiedIn(w') == Claimed(w') == Deposited(w)
            && !InBarrier(w') && Arrived(w') == Arrived(w) && Passed(w') == Passed(w)
  {
  }

  lemma BarrierCounters(c: Config, s: State, i: int)
    requires Sized(c, s) && 1 <= i <= c.n && InBarrier(s.workers[i - 1])
    ensures var w, w' := s.workers[i - 1], BarrierStep(c, s, i).workers[i - 1];
            Deposited(w') == CopiedIn(w') == Claimed(w') == Deposited(w)
  {
  }

  // ----- the barrier

  lemma BarrierSumsAfterPut(s: State, i: int, w: Worker)
    requires 1 <= i <= |s.workers|
    ensures Sum(s.workers[i - 1 := w], InCritical, 0) == Sum(s.workers, InCritical, 0) - InCritical(s.workers[i - 1]) + InCritical(w)
    ensures Sum(s.workers[i - 1 := w], Arrived, 0) == Sum(s.workers, Arrived, 0) - Arrived(s.workers[i - 1]) + Arrived(w)
    ensures Sum(s.workers[i - 1 := w], Passed, 0) == Sum(s.workers, Passed, 0) - Passed(s.workers[i - 1]) + Passed(w)
  {
    SumUpdate(s.workers, i - 1, w, InCritical, 0);
    SumUpdate(s.workers, i - 1, w, Arrived, 0);
    SumUpdate(s.workers, i - 1, w, Passed, 0);
  }

  function Zero(w: Worker): int
  {
    0
  }

  /** At most one worker is inside the critical section. */
  lemma CriticalSection(c: Config, s: State, j: int, k: int)
    requires Sized(c, s) && BarrierOk(c, s) && 0 <= j < k < c.n
    ensures InCritical(s.workers[j]) == 0 || InCritical(s.workers[k]) == 0
  {
    SumOfEqual(s.workers, Zero, 0);
    SumGap(s.workers, Zero, InCritical, 0, j, k);
  }

  /** A worker that has not arrived finds the counter below n. */
  lemma CounterBelow(c: Config, s: State, i: int)
    requires Sized(c, s) && 1 <= i <= c.n && BarrierOk(c, s)
    ensures Arrived(s.workers[i - 1]) == 0 ==> s.barrierCount < c.n
    ensures InCritical(s.workers[i - 1]) == 1 ==> s.gendoneSem == 0
  {
    SumShift(s.workers, Arrived, 0);
    SumAtMost(s.workers, Arrived, 1);
    SumAtLeast(s.workers, InCritical, 0, i - 1);
  }

  lemma QuietKeepsBarrier(c: Config, s: State, s': State, i: int)
    requires 1 <= i <= c.n && OnlyWorker(c, s, s', i) && BarrierOk(c, s)
    requires !InBarrier(s.workers[i - 1]) && !s'.workers[i - 1].pc.BarStore? && !s'.workers[i - 1].pc.BarOpen?
    requires InCritical(s'.workers[i - 1]) == 0
    requires Arrived(s'.workers[i - 1]) == Arrived(s.workers[i - 1]) && Passed(s'.workers[i - 1]) == Passed(s.workers[i - 1])
    ensures BarrierOk(c, s')
  {
    BarrierSumsAfterPut(s, i, s'.workers[i - 1]);
    forall k | 0 <= k < c.n ensures AtBarrierOk(c, s', s'.workers[k], Permits(s')) {
      assert AtBarrierOk(c, s, s.workers[k], Permits(s));
    }
    if s.barrierCount == c.n && Permits(s) < c.n + 1 {
      var k :| 0 <= k < c.n && Opening(s.workers[k]);
      assert Opening(s'.workers[k]);
    }
  }

  lemma BarrierKeepsCounts(c: Config, s: State, i: int)
    requires c.Valid() && Sized(c, s) && 1 <= i <= c.n && WorkerEnabled(c, s, i) && InBarrier(s.workers[i - 1])
    requires BarrierOk(c, s)
    ensures var s' := BarrierStep(c, s, i);
            0 <= s'.gendoneSem == 1 - Sum(s'.workers, InCritical, 0)
            && s'.barrierCount == Sum(s'.workers, Arrived, 0) && 0 <= s'.alldoneSem
            && Permits(s') == Permits(s) + (if s.workers[i - 1].pc.BarOpen? then 1 else 0)
            && s'.barrierCount == s.barrierCount + (if s.workers[i - 1].pc.BarStore? then 1 else 0)
  {
    var s' := BarrierStep(c, s, i);
    BarrierSumsAfterPut(s, i, s'.workers[i - 1]);
    assert AtBarrierOk(c, s, s.workers[i - 1], Permits(s));
  }

  lemma BarrierKeepsWorkers(c: Config, s: State, i: int, k: int)
    requires c.Valid() && Sized(c, s) && 1 <= i <= c.n && WorkerEnabled(c, s, i) && InBarrier(s.workers[i - 1])
    requires BarrierOk(c, s) && 0 <= k < c.n
    ensures var s' := BarrierStep(c, s, i);
            AtBarrierOk(c, s', s'.workers[k], Permits(s'))
  {
    BarrierKeepsCounts(c, s, i);
    assert AtBarrierOk(c, s, s.workers[k], Permits(s));
    assert AtBarrierOk(c, s, s.workers[i - 1], Permits(s));
    CounterBelow(c, s, i);
    SumAtLeast(s.workers, Passed, 0, 0);
    if k < i - 1 { CriticalSection(c, s, k, i - 1); }
    if i - 1 < k { CriticalSection(c, s, i - 1, k); }
  }

  /** Once all have arrived there is a worker still to open the barrier, until
      enough permits for everybody have been posted. */
  lemma BarrierKeepsOpening(c: Config, s: State, i: int)
    requires c.Valid() && Sized(c, s) && 1 <= i <= c.n && WorkerEnabled(c, s, i) && InBarrier(s.workers[i - 1])
    requires BarrierOk(c, s)
    ensures var s' := BarrierStep(c, s, i);
            (0 < Permits(s') ==> s'.barrierCount == c.n)
            && (s'.barrierCount == c.n ==> c.n + 1 <= Permits(s') || exists k :: 0 <= k < c.n && Opening(s'.workers[k]))
  {
    var s' := BarrierStep(c, s, i);
    BarrierKeepsCounts(c, s, i);
    CounterBelow(c, s, i);
    assert AtBarrierOk(c, s, s.workers[i - 1], Permits(s));
    if s'.barrierCount == c.n && Permits(s') < c.n + 1 {
      if s.workers[i - 1].pc.BarStore? || s.workers[i - 1].pc.BarPost? {
        assert Opening(s'.workers[i - 1]);
      } else {
        var k :| 0 <= k < c.n && Opening(s.workers[k]);
        assert Opening(s'.workers[k]);
      }
    }
  }

  lemma WorkerKeepsBarrier(c: Config, s: State, i: int)
    requires c.Valid() && Sized(c, s) && 1 <= i <= c.n && WorkerEnabled(c, s, i)
    requires BarrierOk(c, s) && WorkerAt(c, s, i) && OnlyWorker(c, s, WorkerStep(c, s, i), i)
    ensures BarrierOk(c, WorkerStep(c, s, i))
  {
    if InBarrier(s.workers[i - 1]) {
      BarrierKeepsCounts(c, s, i);
      forall k | 0 <= k < c.n
        ensures AtBarrierOk(c, BarrierStep(c, s, i), BarrierStep(c, s, i).workers[k], Permits(BarrierStep(c, s, i)))
      {
        BarrierKeepsWorkers(c, s, i, k);
      }
      BarrierKeepsOpening(c, s, i);
    } else {
      OutsideBarrier(c, s, i);
      QuietKeepsBarrier(c, s, WorkerStep(c, s, i), i);
    }
  }

  lemma OutsideBarrier(c: Config, s: State, i: int)
    requires c.Valid() && Sized(c, s) && 1 <= i <= c.n && WorkerEnabled(c, s, i)
    requires WorkerAt(c, s, i) && !InBarrier(s.workers[i - 1])
    ensures var w, w' := s.workers[i - 1], WorkerStep(c, s, i).workers[i - 1];
            !w'.pc.BarStore? && !w'.pc.BarOpen? && InCritical(w') == 0
            && Arrived(w') == Arrived(w) && Passed(w') == Passed(w)
  {
    var pc := s.workers[i - 1].pc;
    if pc.Fetch? { FetchCounters(c, s, i); }
    else if pc.Count? { CountCounters(c, s, i); }
  }

  lemma WorkerKeepsProtocol(c: Config, s: State, i: int)
    requires c.Valid() && Sized(c, s) && 1 <= i <= c.n && WorkerEnabled(c, s, i) && ProtocolOk(c, s)
    ensures ProtocolOk(c, WorkerStep(c, s, i)) && OnlyWorker(c, s, WorkerStep(c, s, i), i)
  {
    var s' := WorkerStep(c, s, i);
    assert WorkerAt(c, s, i) && ChannelAt(c, s, i);
    WorkerKeepsOwn(c, s, i);
    OthersKeep(c, s, s', i);
    WorkerKeepsCollect(c, s, i);
    WorkerKeepsBarrier(c, s, i);
  }
}
