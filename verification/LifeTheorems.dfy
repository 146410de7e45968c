/** Safety of the parallel Game of Life, for every interleaving. */
module LifeTheorems {
  import opened LifeBoard
  import opened LifeProtocol
  import opened LifeInvariant
  import opened LifeSafety
  import opened LifeParent
  import opened LifeGrids
  import opened Partition
  import opened Steps
  import opened Sums

  lemma InitialInv(c: Config, b: Boards)
    requires c.Valid() && Plays(c, b)
    ensures Inv(c, b, InitialState(c))
  {
    InitialProtocol(c);
    var s := InitialState(c);
    forall i | 1 <= i <= c.n ensures RowsAt(c, b, s, i) {}
  }

  lemma StepKeepsInv(c: Config, b: Boards, s: State, t: nat)
    requires c.Valid() && Plays(c, b) && Inv(c, b, s) && t <= c.n && Enabled(c, s, t)
    ensures Inv(c, b, Step(c, s, t))
  {
    if t == 0 {
      ParentKeepsProtocol(c, s);
      ParentKeepsGrids(c, b, s);
    } else {
      WorkerKeepsProtocol(c, s, t);
      WorkerKeepsGrids(c, b, s, t);
    }
  }

  /** Every state of every run satisfies the invariant. */
  lemma {:induction false} RunKeepsInv(c: Config, b: Boards, schedule: seq<nat>)
    requires c.Valid() && Plays(c, b) && Run(c, schedule).Reached?
    ensures Inv(c, b, Run(c, schedule).state)
    decreases |schedule|
  {
    if schedule == [] {
      InitialInv(c, b);
    } else {
      var earlier := schedule[..|schedule| - 1];
      RunKeepsInv(c, b, earlier);
      StepKeepsInv(c, b, Run(c, earlier).state, schedule[|schedule| - 1]);
    }
  }

  lemma ReachableInv(c: Config, b: Boards, s: State)
    requires c.Valid() && Plays(c, b) && Reachable(c, s)
    ensures Inv(c, b, s)
  {
    var schedule :| Run(c, schedule) == Reached(s);
    RunKeepsInv(c, b, schedule);
  }

  /** The part of it that does not mention the boards. */
  lemma ReachableProtocol(c: Config, s: State)
    requires c.Valid() && Reachable(c, s)
    ensures Sized(c, s) && ProtocolOk(c, s)
  {
    var b := Evolution(c.lines, c.columns, c.board);
    EvolutionEvolves(c.lines, c.columns, c.board);
    ReachableInv(c, b, s);
  }

  // ----- the result

  /** Whenever the final print is over, it showed the board after all the
      generations asked for, whether or not the game was stopped early. */
  lemma PrintsFinalBoard(c: Config, b: Boards, s: State)
    requires c.Valid() && Plays(c, b) && Reachable(c, s)
    ensures s.parent.pc.Join? || s.parent.pc.Finished? ==>
              SameBoard(c.lines, c.columns, s.printed, b(c.generations)) && s.parent.cGen <= c.generations
  {
    ReachableInv(c, b, s);
    if (s.parent.pc.Join? || s.parent.pc.Finished?) && s.parent.cGen < c.generations {
      StopIsSound(c.lines, c.columns, b, s.parent.cGen, c.generations);
    }
  }

  /** The same with the generations spelt out by repeating the rule. */
  lemma {:induction false} PrintsRepeatedRule(c: Config, s: State)
    requires c.Valid() && Reachable(c, s)
    requires s.parent.pc.Join? || s.parent.pc.Finished?
    ensures SameBoard(c.lines, c.columns, s.printed,
                      Gen(c.lines, c.columns, c.board, c.generations))
  {
    var b := Evolution(c.lines, c.columns, c.board);
    EvolutionEvolves(c.lines, c.columns, c.board);
    PrintsFinalBoard(c, b, s);
    assert b(c.generations) == Gen(c.lines, c.columns, c.board, c.generations);
  }

  /** The number of generations reported at the end is that of the first one
      after which nothing lives or nothing has changed, or all there are. */
  lemma ReportsGenerations(c: Config, b: Boards, s: State)
    requires c.Valid() && Plays(c, b) && Reachable(c, s)
    requires s.parent.pc.Print? || s.parent.pc.Join? || s.parent.pc.Finished?
    ensures 1 <= s.parent.cGen <= c.generations
    ensures forall k | 1 <= k < s.parent.cGen ::
              !AllDead(c.lines, c.columns, b(k)) && !SameBoard(c.lines, c.columns, b(k - 1), b(k))
    ensures AllDead(c.lines, c.columns, b(s.parent.cGen))
            || SameBoard(c.lines, c.columns, b(s.parent.cGen - 1), b(s.parent.cGen))
            || s.parent.cGen == c.generations
  {
    hide AllDead, SameBoard, BeforeOk, AfterOk, ScanOk, ThreadsOk, CollectOk, BarrierOk;
    ReachableInv(c, b, s);
    forall k | 1 <= k < s.parent.cGen
      ensures !AllDead(c.lines, c.columns, b(k)) && !SameBoard(c.lines, c.columns, b(k - 1), b(k))
    {
      assert !StopTest(c.lines, c.columns, b, k);
    }
  }

  lemma ScannedBoards(c: Config, b: Boards, s: State)
    requires Sized(c, s) && ParentOk(c, s.parent) && GridsOk(c, b, s)
    requires s.parent.pc.TestZero? || s.parent.pc.TestSame?
    ensures 1 <= s.parent.cGen
    ensures SameGrid(s.before, b(s.parent.cGen - 1))
    ensures SameBoard(c.lines, c.columns, s.after, b(s.parent.cGen))
  {
  }

  /** When the parent decides after a round, the two grids are two successive
      generations. */
  lemma RoundRefinesLife(c: Config, b: Boards, s: State)
    requires c.Valid() && Plays(c, b) && Reachable(c, s)
    requires s.parent.pc.TestZero? || s.parent.pc.TestSame?
    ensures 1 <= s.parent.cGen
            && SameGrid(s.before, b(s.parent.cGen - 1))
            && SameBoard(c.lines, c.columns, s.after, b(s.parent.cGen))
  {
    ReachableInv(c, b, s);
    ScannedBoards(c, b, s);
  }

  // ----- the messages

  /** In rounds 1..G the parent receives GENDONE only, exactly one from each
      worker; in round G + 1 it receives ALLDONE only, from every worker.
      Between rounds the ALLDONE counter is 0 or n.  No thread ever meets a
      message it does not expect. */
  lemma MessagesInOrder(c: Config, s: State)
    requires c.Valid() && Reachable(c, s)
    ensures var p := s.parent;
            && (p.pc.Recv? && p.pc.op == Post ==>
                  p.message.kind == if p.cGen < c.generations then GENDONE else ALLDONE)
            && (p.pc.Recv? && p.pc.op == Post && p.pc.i == c.n ==>
                  forall k | 0 <= k < c.n :: Deposited(s.workers[k]) == p.cGen + 1)
            && (!p.pc.Recv? ==> p.allDone == 0 || p.allDone == c.n)
            && (forall k | 0 <= k < c.n :: !s.workers[k].pc.Failed?)
  {
    ReachableProtocol(c, s);
    if s.parent.pc.Recv? && s.parent.pc.op == Post && s.parent.pc.i == c.n {
      RoundComplete(c, s);
    }
    forall k | 0 <= k < c.n ensures !s.workers[k].pc.Failed? {
      assert WorkerAt(c, s, k + 1);
    }
  }

  /** No worker passes the barrier before all have deposited the GENDONE of the
      last generation and counted themselves. */
  lemma BarrierHolds(c: Config, s: State, i: int)
    requires c.Valid() && Reachable(c, s) && 1 <= i <= c.n
    requires Passed(s.workers[i - 1]) == 1
    ensures forall k | 0 <= k < c.n :: Arrived(s.workers[k]) == 1 && c.generations <= Deposited(s.workers[k])
  {
    ReachableProtocol(c, s);
    PassedNeedsAll(c, s, i);
    forall k | 0 <= k < c.n ensures Arrived(s.workers[k]) == 1 && c.generations <= Deposited(s.workers[k]) {
      assert WorkerAt(c, s, k + 1);
    }
  }

  /** A mailbox has one permit: on its send semaphore, on its receive
      semaphore, or with the one thread between a wait and the matching post. */
  lemma MailboxPermits(c: Config, s: State, i: int)
    requires c.Valid() && Reachable(c, s) && 1 <= i <= c.n
    ensures var p, w := s.parent, s.workers[i - 1];
            0 <= s.semS[i] && 0 <= s.semR[i]
            && s.semS[i] + s.semR[i]
               + (if w.pc.Fetch? && w.pc.op != Wait then 1 else 0)
               + (if p.pc.Send? && p.pc.i == i && p.pc.op != Wait then 1 else 0) == 1
  {
    ReachableProtocol(c, s);
    assert WorkerAt(c, s, i) && ChannelAt(c, s, i);
  }

  function Replying(w: Worker): int
  {
    if w.pc.Reply? && w.pc.op != Wait then 1 else 0
  }

  lemma {:induction false} ReplyingGap(ws: seq<Worker>, b: int)
    ensures Sum(ws, Replying, 0) == Sum(ws, Claimed, b) - Sum(ws, Deposited, b)
  {
    if ws != [] {
      ReplyingGap(ws[1..], b);
    }
  }

  /** The same for the parent's mailbox, which all workers send to. */
  lemma ParentMailboxPermits(c: Config, s: State)
    requires c.Valid() && Reachable(c, s)
    ensures 0 <= s.semS[0] && 0 <= s.semR[0]
            && s.semS[0] + s.semR[0] + Sum(s.workers, Replying, 0)
               + (if s.parent.pc.Recv? && s.parent.pc.op != Wait then 1 else 0) == 1
  {
    ReachableProtocol(c, s);
    ReplyingGap(s.workers, s.parent.cGen);
  }

  /** At the head of a round, where the program may print it, `before` is the
      present generation; and no worker computes until the parent has posted
      its GO, nor after the parent has left the round. */
  lemma RoundStartsQuiet(c: Config, b: Boards, s: State, i: int)
    requires c.Valid() && Plays(c, b) && Reachable(c, s) && 1 <= i <= c.n
    ensures s.parent.pc == Send(GO, 1, Wait) ==> SameGrid(s.before, b(s.parent.cGen))
    ensures s.workers[i - 1].pc.Count? ==>
              s.workers[i - 1].gen == s.parent.cGen + 1
              && (s.parent.pc.Recv? || (s.parent.pc.Send? && s.parent.pc.kind == GO && i < s.parent.pc.i))
  {
    ReachableInv(c, b, s);
    assert WorkerAt(c, s, i) && ChannelAt(c, s, i);
    BusyInRound(c, s, i);
  }

  // ----- no data race

  /** The shared memory that has no lock of its own. */
  datatype Loc = BeforeCell(x: int, y: int) | AfterCellOf(x: int, y: int) | Slot(i: int)

  /** What the next step of thread t reads. */
  function Reads(c: Config, s: State, t: nat): set<Loc>
    requires Sized(c, s) && t <= c.n
  {
    if t == 0 then
      match s.parent.pc
      case Recv(_, op) => if op == Copy then {Slot(0)} else {}
      case TestZero(x, y, _) => {AfterCellOf(x, y)}
      case TestSame(x, y, _) => {BeforeCell(x, y), AfterCellOf(x, y)}
      case Update(x, y) => {AfterCellOf(x, y)}
      case Print(x, y) => {AfterCellOf(x, y)}
      case _ => {}
    else
      match s.workers[t - 1].pc
      case Fetch(_, op) => if op == Copy then {Slot(t)} else {}
      case Count(x, y, test, _) =>
        if test < 8 then {BeforeCell(Near(x, y, test).0, Near(x, y, test).1)} else {BeforeCell(x, y)}
      case _ => {}
  }

  /** What the next step of thread t writes. */
  function Writes(c: Config, s: State, t: nat): set<Loc>
    requires Sized(c, s) && t <= c.n
  {
    if t == 0 then
      match s.parent.pc
      case Send(_, i, op) => if op == Copy then {Slot(i)} else {}
      case Update(x, y) => {BeforeCell(x, y)}
      case _ => {}
    else
      match s.workers[t - 1].pc
      case Count(x, y, test, _) => if test < 8 then {} else {AfterCellOf(x, y)}
      case Reply(_, op) => if op == Copy then {Slot(0)} else {}
      case _ => {}
  }

  lemma CopiesExclude(c: Config, s: State, i: int, j: int)
    requires c.Valid() && Sized(c, s) && ProtocolOk(c, s) && 1 <= i < j <= c.n
    ensures !(s.workers[i - 1].pc.Reply? && s.workers[i - 1].pc.op == Copy
              && s.workers[j - 1].pc.Reply? && s.workers[j - 1].pc.op == Copy)
  {
    forall k | 0 <= k < |s.workers| ensures Deposited(s.workers[k]) <= Claimed(s.workers[k]) {}
    SumGap(s.workers, Deposited, Claimed, s.parent.cGen, i - 1, j - 1);
  }

  lemma WorkersDoNotRace(c: Config, s: State, i: nat, j: nat)
    requires c.Valid() && Sized(c, s) && ProtocolOk(c, s) && 1 <= i <= c.n && 1 <= j <= c.n && i != j
    ensures Writes(c, s, i) !! Reads(c, s, j) + Writes(c, s, j)
  {
    assert WorkerAt(c, s, i) && WorkerAt(c, s, j);
    if i < j { CopiesExclude(c, s, i, j); } else { CopiesExclude(c, s, j, i); }
    var v, w := s.workers[i - 1], s.workers[j - 1];
    if v.pc.Count? && w.pc.Count? && v.pc.line == w.pc.line {
      PartsDisjoint(c.lines, c.n, i, j, v.pc.line);
    }
  }

  lemma ParentDoesNotRace(c: Config, s: State, i: nat)
    requires c.Valid() && Sized(c, s) && ProtocolOk(c, s) && 1 <= i <= c.n
    ensures Writes(c, s, 0) !! Reads(c, s, i) + Writes(c, s, i)
    ensures Writes(c, s, i) !! Reads(c, s, 0)
  {
    assert WorkerAt(c, s, i) && ChannelAt(c, s, i);
    BusyInRound(c, s, i);
    forall k | 0 <= k < |s.workers| ensures Deposited(s.workers[k]) <= Claimed(s.workers[k]) {}
    SumGap(s.workers, Deposited, Claimed, s.parent.cGen, i - 1, i - 1);
  }

  /** The grids and the mailboxes, none of which has a lock, are never written
      by one thread while another thread's next step reads or writes the same
      cell or slot. */
  lemma NoDataRace(c: Config, s: State, t: nat, u: nat)
    requires c.Valid() && Reachable(c, s) && t <= c.n && u <= c.n && t != u
    ensures Writes(c, s, t) !! Reads(c, s, u) + Writes(c, s, u)
  {
    ReachableProtocol(c, s);
    if t == 0 { ParentDoesNotRace(c, s, u); }
    else if u == 0 { ParentDoesNotRace(c, s, t); }
    else { WorkersDoNotRace(c, s, t, u); }
  }
}
