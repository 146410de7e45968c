/** The protocol of the two other threaded programs, as a transition system: the
    parent hands every worker a range, and each worker hands back one answer.
    In the parallel sum all answers come through the parent's mailbox (shared);
    in the string scan each comes back through the worker's own mailbox, after
    the parent has joined all threads.  One step is one semaphore wait or post
    or one copy; work on a thread's own variables goes with the step before. */
module CollectProtocol {
  import opened Steps
  import opened Sums

  datatype Config<!T> = Config(n: nat, shared: bool, range: int -> (int, int), answer: (int, int) -> T)

  datatype Msg<T> = Nothing | Range(lo: int, hi: int) | AllDone(result: T)

  datatype WorkerPc = Unborn | Fetch(op: Op) | Reply(op: Op) | Exited | Failed

  datatype Worker<T> = Worker(pc: WorkerPc, message: Msg<T>)

  datatype ParentPc = Create(i: int) | Send(i: int, op: Op) | Recv(i: int, op: Op) | Join(i: int) | Finished

  datatype State<T> = State(
    pc: ParentPc, message: Msg<T>,
    collected: seq<T>,        // the answers the parent has taken in, in order
    workers: seq<Worker<T>>,  // worker i at index i - 1
    semS: seq<int>, semR: seq<int>, mailboxes: seq<Msg<T>>,
    deposited: seq<int>)      // history: who copied into the parent's mailbox, in order

  function InitialState<T>(c: Config<T>): State<T>
  {
    State(Create(1), Nothing, [], seq(c.n, i => Worker(Unborn, Nothing)),
          seq(c.n + 1, i => 1), seq(c.n + 1, i => 0), seq(c.n + 1, i => Nothing), [])
  }

  predicate Sized<T>(c: Config<T>, s: State<T>)
  {
    |s.workers| == c.n && |s.semS| == |s.semR| == |s.mailboxes| == c.n + 1
  }

  /** The mailbox worker i answers in. */
  function ReplyBox<T>(c: Config<T>, i: int): int
  {
    if c.shared then 0 else i
  }

  function Answer<T>(c: Config<T>, i: int): T
  {
    c.answer(c.range(i).0, c.range(i).1)
  }

  // ----- workers

  predicate WorkerEnabled<T>(c: Config<T>, s: State<T>, i: int)
    requires Sized(c, s) && 1 <= i <= c.n
  {
    match s.workers[i - 1].pc
    case Fetch(op) => op == Wait ==> s.semR[i] > 0
    case Reply(op) => op == Wait ==> s.semS[ReplyBox(c, i)] > 0
    case _ => false
  }

  function WorkerStep<T>(c: Config<T>, s: State<T>, i: int): (s': State<T>)
    requires Sized(c, s) && 1 <= i <= c.n && WorkerEnabled(c, s, i)
    ensures Sized(c, s')
  {
    var w := s.workers[i - 1];
    var r := ReplyBox(c, i);
    match w.pc
    case Fetch(Wait) =>
      s.(workers := s.workers[i - 1 := w.(pc := Fetch(Copy))], semR := Add(s.semR, i, -1))
    case Fetch(Copy) =>
      s.(workers := s.workers[i - 1 := Worker(Fetch(Post), s.mailboxes[i])])
    case Fetch(Post) =>
      var w' := if w.message.Range? then Worker(Reply(Wait), AllDone(c.answer(w.message.lo, w.message.hi)))
                else w.(pc := Failed);
      s.(workers := s.workers[i - 1 := w'], semS := Add(s.semS, i, 1))
    case Reply(Wait) =>
      s.(workers := s.workers[i - 1 := w.(pc := Reply(Copy))], semS := Add(s.semS, r, -1))
    case Reply(Copy) =>
      s.(workers := s.workers[i - 1 := w.(pc := Reply(Post))], mailboxes := s.mailboxes[r := w.message],
         deposited := if c.shared then s.deposited + [i] else s.deposited)
    case Reply(Post) =>
      s.(workers := s.workers[i - 1 := w.(pc := Exited)], semR := Add(s.semR, r, 1))
  }

  // ----- the parent

  /** The mailbox of the i-th receipt. */
  function RecvBox<T>(c: Config<T>, i: int): int
  {
    if c.shared then 0 else i
  }

  predicate ParentEnabled<T>(c: Config<T>, s: State<T>)
    requires Sized(c, s)
  {
    match s.pc
    case Create(i) => 1 <= i <= c.n
    case Send(i, op) => 1 <= i <= c.n && (op == Wait ==> s.semS[i] > 0)
    case Recv(i, op) => 1 <= i <= c.n && (op == Wait ==> s.semR[RecvBox(c, i)] > 0)
    case Join(i) => 1 <= i <= c.n && s.workers[i - 1].pc.Exited?
    case Finished => false
  }

  function ParentStep<T>(c: Config<T>, s: State<T>): (s': State<T>)
    requires Sized(c, s) && ParentEnabled(c, s)
    ensures Sized(c, s')
  {
    match s.pc
    case Create(i) =>
      s.(workers := s.workers[i - 1 := s.workers[i - 1].(pc := Fetch(Wait))],
         pc := if i < c.n then Create(i + 1) else Send(1, Wait))
    case Send(i, Wait) => s.(pc := Send(i, Copy), semS := Add(s.semS, i, -1))
    case Send(i, Copy) =>
      s.(pc := Send(i, Post), mailboxes := s.mailboxes[i := Range(c.range(i).0, c.range(i).1)])
    case Send(i, Post) =>
      s.(pc := if i < c.n then Send(i + 1, Wait) else if c.shared then Recv(1, Wait) else Join(1),
         semR := Add(s.semR, i, 1))
    case Recv(i, Wait) => s.(pc := Recv(i, Copy), semR := Add(s.semR, RecvBox(c, i), -1))
    case Recv(i, Copy) => s.(pc := Recv(i, Post), message := s.mailboxes[RecvBox(c, i)])
    case Recv(i, Post) =>
      s.(pc := if i < c.n then Recv(i + 1, Wait) else if c.shared then Join(1) else Finished,
         collected := if s.message.AllDone? then s.collected + [s.message.result] else s.collected,
         semS := Add(s.semS, RecvBox(c, i), 1))
    case Join(i) =>
      s.(pc := if i < c.n then Join(i + 1) else if c.shared then Finished else Recv(1, Wait))
  }

  // ----- runs

  predicate Enabled<T>(c: Config<T>, s: State<T>, t: nat)
    requires Sized(c, s) && t <= c.n
  {
    if t == 0 then ParentEnabled(c, s) else WorkerEnabled(c, s, t)
  }

  function Step<T>(c: Config<T>, s: State<T>, t: nat): (s': State<T>)
    requires Sized(c, s) && t <= c.n && Enabled(c, s, t)
    ensures Sized(c, s')
  {
    if t == 0 then ParentStep(c, s) else WorkerStep(c, s, t)
  }

  function Run<T>(c: Config<T>, schedule: seq<nat>): (r: Outcome<State<T>>)
    ensures r.Reached? ==> Sized(c, r.state)
  {
    if schedule == [] then Reached(InitialState(c))
    else
      var r := Run(c, schedule[..|schedule| - 1]);
      var t := schedule[|schedule| - 1];
      if r.Reached? && t <= c.n && Enabled(c, r.state, t) then Reached(Step(c, r.state, t)) else Impossible
  }

  ghost predicate Reachable<T>(c: Config<T>, s: State<T>)
  {
    exists schedule :: Run(c, schedule) == Reached(s)
  }

  predicate Stuck<T>(c: Config<T>, s: State<T>)
    requires Sized(c, s)
  {
    forall t | 0 <= t <= c.n :: !Enabled(c, s, t)
  }

  predicate Ended<T>(c: Config<T>, s: State<T>)
    requires Sized(c, s)
  {
    s.pc.Finished? && forall k | 0 <= k < c.n :: s.workers[k].pc.Exited?
  }

  // ----- the invariant

  function Past(op: Op, stage: int): int
  {
    match op
    case Wait => 0
    case Copy => if stage < 1 then 1 else 0
    case Post => if stage < 2 then 1 else 0
  }

  /** Whether w has got past the given step of fetching its range. */
  function Fetched<T>(w: Worker<T>, stage: int): int
  {
    match w.pc
    case Fetch(op) => Past(op, stage)
    case Reply(_) => 1
    case Exited => 1
    case _ => 0
  }

  /** Whether w has got past the given step of answering. */
  function Replied<T>(w: Worker<T>, stage: int): int
  {
    match w.pc
    case Reply(op) => Past(op, stage)
    case Exited => 1
    case _ => 0
  }

  /** The same for the parent sending the range to worker i ... */
  function Sent(pc: ParentPc, i: int, stage: int): int
  {
    match pc
    case Create(_) => 0
    case Send(j, op) => if i < j then 1 else if i == j then Past(op, stage) else 0
    case _ => 1
  }

  /** ... and receiving from worker i's own mailbox ... */
  function Received(pc: ParentPc, i: int, stage: int): int
  {
    match pc
    case Recv(j, op) => if i < j then 1 else if i == j then Past(op, stage) else 0
    case Finished => 1
    case _ => 0
  }

  /** ... and, in total, from its own. */
  function ReceivedAll<T>(c: Config<T>, pc: ParentPc, stage: int): int
  {
    match pc
    case Recv(j, op) => j - 1 + Past(op, stage)
    case Join(_) => if c.shared then c.n else 0
    case Finished => c.n
    case _ => 0
  }

  predicate PcOk<T>(c: Config<T>, pc: ParentPc)
  {
    match pc
    case Create(i) => 1 <= i <= c.n
    case Send(i, _) => 1 <= i <= c.n
    case Recv(i, _) => 1 <= i <= c.n
    case Join(i) => 1 <= i <= c.n
    case Finished => true
  }

  predicate WorkerOk<T(==)>(c: Config<T>, pc: ParentPc, w: Worker<T>, i: int)
  {
    && !w.pc.Failed?
    && (w.pc.Unborn? <==> pc.Create? && pc.i <= i)
    && (w.pc == Fetch(Post) ==> w.message == Range(c.range(i).0, c.range(i).1))
    && (w.pc.Reply? ==> w.message == AllDone(Answer(c, i)))
  }

  /** Mailbox i.  In the string scan it carries the range one way and then the
      answer the other way. */
  predicate ChannelOk<T(==)>(c: Config<T>, pc: ParentPc, w: Worker<T>, i: int, semS: int, semR: int, box: Msg<T>)
  {
    var back := if c.shared then 0 else 1;
    && 0 <= semR == Sent(pc, i, 2) - Fetched(w, 0) + back * (Replied(w, 2) - Received(pc, i, 0))
    && 0 <= semS == 1 - Sent(pc, i, 0) + Fetched(w, 2) + back * (Received(pc, i, 2) - Replied(w, 0))
    && (Fetched(w, 1) < Sent(pc, i, 1) ==> box == Range(c.range(i).0, c.range(i).1))
    && (!c.shared && Received(pc, i, 1) < Replied(w, 1) ==> box == AllDone(Answer(c, i)))
  }

  predicate ThreadAt<T(==)>(c: Config<T>, s: State<T>, i: int)
    requires Sized(c, s) && 1 <= i <= c.n
  {
    WorkerOk(c, s.pc, s.workers[i - 1], i)
    && ChannelOk(c, s.pc, s.workers[i - 1], i, s.semS[i], s.semR[i], s.mailboxes[i])
    && Fetched(s.workers[i - 1], 0) <= Sent(s.pc, i, 2)
    && (s.pc.Finished? || (s.pc.Join? && i < s.pc.i) || (!c.shared && s.pc.Recv?) ==> s.workers[i - 1].pc.Exited?)
  }

  function Claimed<T>(w: Worker<T>): int { Replied(w, 0) }
  function CopiedIn<T>(w: Worker<T>): int { Replied(w, 1) }
  function Deposited<T>(w: Worker<T>): int { Replied(w, 2) }

  /** The worker whose answer is the k-th one the parent takes. */
  function Order<T>(c: Config<T>, s: State<T>, k: nat): int
    requires c.shared ==> k < |s.deposited|
  {
    if c.shared then s.deposited[k] else k + 1
  }

  ghost predicate CollectedOk<T>(c: Config<T>, s: State<T>)
  {
    && |s.collected| == ReceivedAll(c, s.pc, 2)
    && (c.shared ==> ReceivedAll(c, s.pc, 1) <= |s.deposited|)
    && (forall k | 0 <= k < |s.collected| :: s.collected[k] == Answer(c, Order(c, s, k)))
    && (s.pc.Recv? && s.pc.op == Post ==> s.message == AllDone(Answer(c, Order(c, s, s.pc.i - 1))))
  }

  predicate Distinct(ids: seq<int>)
  {
    forall j, k | 0 <= j < k < |ids| :: ids[j] != ids[k]
  }

  predicate Logged<T>(c: Config<T>, s: State<T>, i: int)
    requires Sized(c, s) && 1 <= i <= c.n
  {
    i in s.deposited <==> CopiedIn(s.workers[i - 1]) == 1
  }

  /** The parent's mailbox in the parallel sum, with its many senders. */
  ghost predicate SharedOk<T>(c: Config<T>, s: State<T>)
    requires Sized(c, s)
  {
    && 0 <= s.semR[0] == Sum(s.workers, Deposited, 0) - ReceivedAll(c, s.pc, 0)
    && 0 <= s.semS[0] == 1 + ReceivedAll(c, s.pc, 2) - Sum(s.workers, Claimed, 0)
    && |s.deposited| == Sum(s.workers, CopiedIn, 0)
    && Distinct(s.deposited)
    && (forall k | 0 <= k < |s.deposited| :: 1 <= s.deposited[k] <= c.n)
    && (forall i | 1 <= i <= c.n :: Logged(c, s, i))
    && (ReceivedAll(c, s.pc, 1) < |s.deposited| && s.deposited != [] ==>
          s.mailboxes[0] == AllDone(Answer(c, s.deposited[|s.deposited| - 1])))
  }

  ghost predicate Inv<T>(c: Config<T>, s: State<T>)
  {
    Sized(c, s) && PcOk(c, s.pc) && (forall i | 1 <= i <= c.n :: ThreadAt(c, s, i))
    && CollectedOk(c, s) && (c.shared ==> SharedOk(c, s))
  }
}
