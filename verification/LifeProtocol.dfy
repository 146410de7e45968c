/** The parallel Game of Life as a transition system.  One step of a thread is
    one access to shared memory: a semaphore wait or post, a copy into or out
    of a mailbox, one read of a cell or of the barrier counter, one write.
    Computation on a thread's own variables is merged with the access before
    it.  Thread 0 is the parent, threads 1..n are the workers. */
module LifeProtocol {
  import opened LifeBoard
  import opened Partition
  import opened Steps

  datatype Config = Config(n: nat, generations: nat, lines: nat, columns: nat, board: Grid)
  {
    /** What the program and its instructions ask of the input: at least one
        thread and at most one per line, at least one generation, a board that
        leaves a line and a column of the arrays free. */
    ghost predicate Valid()
    {
      1 <= n <= lines < MAXGRID && 1 <= columns < MAXGRID && 1 <= generations
      && Framed(lines, columns, board)
    }
  }

  datatype Kind = NONE | RANGE | ALLDONE | GO | GENDONE | STOP

  datatype Msg = Msg(kind: Kind, value1: int, value2: int)

  datatype WorkerPc =
    | Unborn
    | Fetch(first: bool, op: Op)                             // recvMsg: first for the RANGE
    | Count(line: int, column: int, test: nat, counter: nat) // before one of the eight tests, or the write
    | Reply(last: bool, op: Op)                              // sendMsg: GENDONE, or last for ALLDONE
    | BarWait | BarLoad | BarStore(seen: int) | BarPost      // the critical section of the barrier
    | BarTest | BarOpen(posts: int) | BarPass
    | ExitStop | ExitEnd                                     // the two pthread_exit
    | Failed                                                 // exit(1) on an unexpected message

  datatype Worker = Worker(pc: WorkerPc, gen: int, lineFrom: int, lineTo: int, message: Msg)

  datatype ParentPc =
    | Create(i: int)
    | Send(kind: Kind, i: int, op: Op)
    | Recv(i: int, op: Op)
    | TestZero(line: int, column: int, flag: bool)
    | TestSame(line: int, column: int, flag: bool)
    | Update(line: int, column: int)
    | Print(line: int, column: int)
    | Join(i: int)
    | Finished

  datatype Parent = Parent(pc: ParentPc, cGen: int, genDone: int, allDone: int, message: Msg)

  datatype State = State(
    parent: Parent,
    workers: seq<Worker>,     // worker i at index i - 1
    semS: seq<int>, semR: seq<int>, mailboxes: seq<Msg>,
    gendoneSem: int, alldoneSem: int, barrierCount: int,
    before: Grid, after: Grid,
    printed: Grid)            // the cells of the final printMatrix

  const Nothing := Msg(NONE, 0, 0)

  function InitialState(c: Config): State
  {
    State(
      Parent(Create(1), 0, 0, 0, Nothing),
      seq(c.n, i => Worker(Unborn, 1, 0, 0, Nothing)),
      seq(c.n + 1, i => 1), seq(c.n + 1, i => 0), seq(c.n + 1, i => Nothing),
      1, 0, 0,
      c.board, map[], map[])
  }

  /** The lengths that never change. */
  predicate Sized(c: Config, s: State)
  {
    |s.workers| == c.n && |s.semS| == |s.semR| == |s.mailboxes| == c.n + 1
  }

  function Put(s: State, i: int, w: Worker): State
    requires 1 <= i <= |s.workers|
  {
    s.(workers := s.workers[i - 1 := w])
  }

  function RangeMsg(c: Config, i: int): Msg
    requires 1 <= c.n
  {
    Msg(RANGE, Lo(c.lines, c.n, i), Hi(c.lines, c.n, i))
  }

  // ----- workers

  predicate Exited(w: Worker)
  {
    w.pc.ExitStop? || w.pc.ExitEnd?
  }

  predicate WorkerEnabled(c: Config, s: State, i: int)
    requires Sized(c, s) && 1 <= i <= c.n
  {
    match s.workers[i - 1].pc
    case Unborn => false
    case Fetch(_, op) => op == Wait ==> s.semR[i] > 0
    case Reply(_, op) => op == Wait ==> s.semS[0] > 0
    case BarWait => s.gendoneSem > 0
    case BarPass => s.alldoneSem > 0
    case ExitStop => false
    case ExitEnd => false
    case Failed => false
    case _ => true
  }

  /** The head of the generation loop. */
  function LoopHead(c: Config, gen: int): WorkerPc
  {
    if gen <= c.generations then Fetch(false, Wait) else BarWait
  }

  function AfterFetch(c: Config, first: bool, w: Worker): Worker
  {
    if first then
      if w.message.kind == RANGE
      then w.(pc := LoopHead(c, 1), gen := 1, lineFrom := w.message.value1, lineTo := w.message.value2)
      else w.(pc := Failed)
    else if w.message.kind == STOP then w.(pc := ExitStop)
    else if w.message.kind == GO then
      w.(pc := if w.lineFrom <= w.lineTo && 0 < c.columns
               then Count(w.lineFrom, 0, 0, 0) else Reply(false, Wait))
    else w.(pc := Failed)
  }

  function FetchStep(c: Config, s: State, i: int): (s': State)
    requires Sized(c, s) && 1 <= i <= c.n && s.workers[i - 1].pc.Fetch?
    ensures Sized(c, s')
  {
    var w := s.workers[i - 1];
    match w.pc.op
    case Wait => Put(s, i, w.(pc := Fetch(w.pc.first, Copy))).(semR := Add(s.semR, i, -1))
    case Copy => Put(s, i, w.(pc := Fetch(w.pc.first, Post), message := s.mailboxes[i]))
    case Post => Put(s, i, AfterFetch(c, w.pc.first, w)).(semS := Add(s.semS, i, 1))
  }

  function AfterCell(c: Config, w: Worker, line: int, column: int): WorkerPc
  {
    if column + 1 < c.columns then Count(line, column + 1, 0, 0)
    else if line + 1 <= w.lineTo then Count(line + 1, 0, 0, 0)
    else Reply(false, Wait)
  }

  function CountStep(c: Config, s: State, i: int): (s': State)
    requires Sized(c, s) && 1 <= i <= c.n && s.workers[i - 1].pc.Count?
    ensures Sized(c, s')
  {
    var w := s.workers[i - 1];
    var Count(line, column, test, counter) := w.pc;
    if test < 8 then
      var hit := Test(c.lines, c.columns, s.before, line, column, test);
      Put(s, i, w.(pc := Count(line, column, test + 1, if hit then counter + 1 else counter)))
    else
      Put(s, i, w.(pc := AfterCell(c, w, line, column)))
      .(after := s.after[(line, column) := Rule(counter, At(s.before, line, column))])
  }

  function ReplyStep(c: Config, s: State, i: int): (s': State)
    requires Sized(c, s) && 1 <= i <= c.n && s.workers[i - 1].pc.Reply?
    ensures Sized(c, s')
  {
    var w := s.workers[i - 1];
    var last := w.pc.last;
    var m := w.message.(kind := if last then ALLDONE else GENDONE);
    match w.pc.op
    case Wait => Put(s, i, w.(pc := Reply(last, Copy), message := m)).(semS := Add(s.semS, 0, -1))
    case Copy => Put(s, i, w.(pc := Reply(last, Post))).(mailboxes := s.mailboxes[0 := m])
    case Post =>
      Put(s, i, if last then w.(pc := ExitEnd) else w.(pc := LoopHead(c, w.gen + 1), gen := w.gen + 1))
      .(semR := Add(s.semR, 0, 1))
  }

  predicate InBarrier(w: Worker)
  {
    w.pc.BarWait? || w.pc.BarLoad? || w.pc.BarStore? || w.pc.BarPost?
    || w.pc.BarTest? || w.pc.BarOpen? || w.pc.BarPass?
  }

  function BarrierStep(c: Config, s: State, i: int): (s': State)
    requires Sized(c, s) && 1 <= i <= c.n && InBarrier(s.workers[i - 1])
    ensures Sized(c, s')
  {
    var w := s.workers[i - 1];
    match w.pc
    case BarWait => Put(s, i, w.(pc := BarLoad)).(gendoneSem := s.gendoneSem - 1)
    case BarLoad => Put(s, i, w.(pc := BarStore(s.barrierCount)))
    case BarStore(seen) => Put(s, i, w.(pc := BarPost)).(barrierCount := seen + 1)
    case BarPost => Put(s, i, w.(pc := BarTest)).(gendoneSem := s.gendoneSem + 1)
    case BarTest => Put(s, i, w.(pc := if s.barrierCount == c.n then BarOpen(0) else BarPass))
    case BarOpen(posts) =>
      Put(s, i, w.(pc := if posts < c.n then BarOpen(posts + 1) else BarPass))
      .(alldoneSem := s.alldoneSem + 1)
    case BarPass => Put(s, i, w.(pc := Reply(true, Wait))).(alldoneSem := s.alldoneSem - 1)
  }

  function WorkerStep(c: Config, s: State, i: int): (s': State)
    requires Sized(c, s) && 1 <= i <= c.n && WorkerEnabled(c, s, i)
    ensures Sized(c, s')
  {
    var pc := s.workers[i - 1].pc;
    if pc.Fetch? then FetchStep(c, s, i)
    else if pc.Count? then CountStep(c, s, i)
    else if pc.Reply? then ReplyStep(c, s, i)
    else BarrierStep(c, s, i)
  }

  // ----- the parent

  predicate ParentEnabled(c: Config, s: State)
    requires Sized(c, s)
  {
    match s.parent.pc
    case Send(_, i, op) => 0 <= i <= c.n && (op == Wait ==> s.semS[i] > 0)
    case Recv(_, op) => op == Wait ==> s.semR[0] > 0
    case Join(i) => 1 <= i <= c.n && Exited(s.workers[i - 1])
    case Create(i) => 1 <= i <= c.n
    case Finished => false
    case _ => true
  }

  function CreateStep(c: Config, s: State): (s': State)
    requires Sized(c, s) && s.parent.pc.Create? && 1 <= s.parent.pc.i <= c.n
    ensures Sized(c, s')
  {
    var i := s.parent.pc.i;
    Put(s, i, s.workers[i - 1].(pc := Fetch(true, Wait)))
    .(parent := s.parent.(pc := if i < c.n then Create(i + 1) else Send(RANGE, 1, Wait)))
  }

  /** What the parent sends to worker i. */
  function Outgoing(c: Config, kind: Kind, i: int): Msg
  {
    if kind == RANGE && 1 <= c.n then RangeMsg(c, i) else Msg(kind, 0, 0)
  }

  function AfterSend(p: Parent): Parent
    requires p.pc.Send?
  {
    match p.pc.kind
    case RANGE => p.(pc := Send(GO, 1, Wait), cGen := 0, allDone := 0)
    case GO => p.(pc := Recv(1, Wait), genDone := 0)
    case _ => p.(pc := Print(0, 0))
  }

  function SendStep(c: Config, s: State): (s': State)
    requires Sized(c, s) && s.parent.pc.Send? && 0 <= s.parent.pc.i <= c.n
    ensures Sized(c, s')
  {
    var p := s.parent;
    var Send(kind, i, op) := p.pc;
    match op
    case Wait => s.(parent := p.(pc := Send(kind, i, Copy)), semS := Add(s.semS, i, -1))
    case Copy =>
      s.(parent := p.(pc := Send(kind, i, Post)), mailboxes := s.mailboxes[i := Outgoing(c, kind, i)])
    case Post =>
      s.(parent := if i < c.n then p.(pc := Send(kind, i + 1, Wait)) else AfterSend(p),
         semR := Add(s.semR, i, 1))
  }

  /** Counting one received message, and the decision after the last of a round. */
  function AfterRecv(c: Config, p: Parent): Parent
    requires p.pc.Recv?
  {
    var genDone := if p.message.kind == GENDONE then p.genDone + 1 else p.genDone;
    var allDone := if p.message.kind == ALLDONE then p.allDone + 1 else p.allDone;
    var q := p.(genDone := genDone, allDone := allDone);
    if p.pc.i < c.n then q.(pc := Recv(p.pc.i + 1, Wait))
    else if allDone == c.n then q.(pc := Print(0, 0))
    else q.(cGen := p.cGen + 1, pc := TestZero(0, 0, true))
  }

  function RecvStep(c: Config, s: State): (s': State)
    requires Sized(c, s) && s.parent.pc.Recv?
    ensures Sized(c, s')
  {
    var p := s.parent;
    match p.pc.op
    case Wait => s.(parent := p.(pc := Recv(p.pc.i, Copy)), semR := Add(s.semR, 0, -1))
    case Copy => s.(parent := p.(pc := Recv(p.pc.i, Post), message := s.mailboxes[0]))
    case Post => s.(parent := AfterRecv(c, p), semS := Add(s.semS, 0, 1))
  }

  /** Row-major scanning, as in all the parent's double loops. */
  predicate LastCell(c: Config, line: int, column: int)
  {
    column + 1 >= c.columns && line + 1 >= c.lines
  }

  function NextIndex(c: Config, line: int, column: int): (int, int)
  {
    if column + 1 < c.columns then (line, column + 1) else (line + 1, 0)
  }

  function ScanStep(c: Config, s: State): (s': State)
    requires s.parent.pc.TestZero? || s.parent.pc.TestSame? || s.parent.pc.Update? || s.parent.pc.Print?
    ensures Sized(c, s) ==> Sized(c, s')
  {
    var p := s.parent;
    match p.pc
    case TestZero(line, column, flag) =>
      var flag' := flag && At(s.after, line, column) == 0;
      var (l, k) := NextIndex(c, line, column);
      s.(parent := p.(pc := if !LastCell(c, line, column) then TestZero(l, k, flag')
                            else if flag' then Send(STOP, 1, Wait) else TestSame(0, 0, true)))
    case TestSame(line, column, flag) =>
      var flag' := flag && At(s.before, line, column) == At(s.after, line, column);
      var (l, k) := NextIndex(c, line, column);
      s.(parent := p.(pc := if !LastCell(c, line, column) then TestSame(l, k, flag')
                            else if flag' then Send(STOP, 1, Wait) else Update(0, 0)))
    case Update(line, column) =>
      var (l, k) := NextIndex(c, line, column);
      s.(parent := p.(pc := if !LastCell(c, line, column) then Update(l, k)
                            else if p.allDone == c.n then Print(0, 0) else Send(GO, 1, Wait)),
         before := s.before[(line, column) := At(s.after, line, column)])
    case Print(line, column) =>
      var (l, k) := NextIndex(c, line, column);
      s.(parent := p.(pc := if !LastCell(c, line, column) then Print(l, k) else Join(1)),
         printed := s.printed[(line, column) := At(s.after, line, column)])
  }

  function JoinStep(c: Config, s: State): (s': State)
    requires s.parent.pc.Join?
    ensures Sized(c, s) ==> Sized(c, s')
  {
    var i := s.parent.pc.i;
    s.(parent := s.parent.(pc := if i < c.n then Join(i + 1) else Finished))
  }

  function ParentStep(c: Config, s: State): (s': State)
    requires Sized(c, s) && ParentEnabled(c, s)
    ensures Sized(c, s')
  {
    var pc := s.parent.pc;
    if pc.Create? then CreateStep(c, s)
    else if pc.Send? then SendStep(c, s)
    else if pc.Recv? then RecvStep(c, s)
    else if pc.Join? then JoinStep(c, s)
    else ScanStep(c, s)
  }

  // ----- runs

  predicate Enabled(c: Config, s: State, t: nat)
    requires Sized(c, s) && t <= c.n
  {
    if t == 0 then ParentEnabled(c, s) else WorkerEnabled(c, s, t)
  }

  function Step(c: Config, s: State, t: nat): (s': State)
    requires Sized(c, s) && t <= c.n && Enabled(c, s, t)
    ensures Sized(c, s')
  {
    if t == 0 then ParentStep(c, s) else WorkerStep(c, s, t)
  }

  /** The threads run in the given order: each interleaving is one schedule. */
  function Run(c: Config, schedule: seq<nat>): (r: Outcome<State>)
    ensures r.Reached? ==> Sized(c, r.state)
  {
    if schedule == [] then Reached(InitialState(c))
    else
      var r := Run(c, schedule[..|schedule| - 1]);
      var t := schedule[|schedule| - 1];
      if r.Reached? && t <= c.n && Enabled(c, r.state, t) then Reached(Step(c, r.state, t)) else Impossible
  }

  /** s is the state after some interleaving. */
  ghost predicate Reachable(c: Config, s: State)
  {
    exists schedule :: Run(c, schedule) == Reached(s)
  }

  /** No thread can take a step. */
  predicate Stuck(c: Config, s: State)
    requires Sized(c, s)
  {
    forall t | 0 <= t <= c.n :: !Enabled(c, s, t)
  }

  /** The program has ended as intended: all joins returned, all threads gone. */
  predicate Ended(c: Config, s: State)
    requires Sized(c, s)
  {
    s.parent.pc.Finished? && forall k | 0 <= k < c.n :: Exited(s.workers[k])
  }
}
