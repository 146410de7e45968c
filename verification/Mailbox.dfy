/** One mailbox slot guarded by two semaphores, used by any number of threads
    that send and receive as they like.  It refines a queue of capacity one. */
module Mailbox {
  import opened Steps
  import opened Sums

  /** Where a thread is in sendMsg or recvMsg: past the wait, and past the copy. */
  datatype Phase<M> = Idle | Putting(message: M, copied: bool) | Getting(copied: bool)

  datatype Box<M> = Box(
    threads: seq<Phase<M>>, semS: int, semR: int, slot: M,
    sent: seq<M>, received: seq<M>)   // history: the order of the copies in and out

  datatype Action<M> = BeginSend(t: nat, message: M) | BeginRecv(t: nat) | Go(t: nat)

  function Fresh<M>(threads: nat, slot: M): Box<M>
  {
    Box(seq(threads, i => Idle), 1, 0, slot, [], [])
  }

  predicate Possible<M>(b: Box<M>, a: Action<M>)
  {
    a.t < |b.threads| &&
    match a
    case BeginSend(t, _) => b.threads[t].Idle? && b.semS > 0
    case BeginRecv(t) => b.threads[t].Idle? && b.semR > 0
    case Go(t) => !b.threads[t].Idle?
  }

  /** One step: a wait, a copy or a post. */
  function Act<M>(b: Box<M>, a: Action<M>): Box<M>
    requires Possible(b, a)
  {
    match a
    case BeginSend(t, m) => b.(threads := b.threads[t := Putting(m, false)], semS := b.semS - 1)
    case BeginRecv(t) => b.(threads := b.threads[t := Getting(false)], semR := b.semR - 1)
    case Go(t) =>
      match b.threads[t]
      case Putting(m, false) => b.(threads := b.threads[t := Putting(m, true)], slot := m, sent := b.sent + [m])
      case Putting(_, true) => b.(threads := b.threads[t := Idle], semR := b.semR + 1)
      case Getting(false) => b.(threads := b.threads[t := Getting(true)], received := b.received + [b.slot])
      case Getting(true) => b.(threads := b.threads[t := Idle], semS := b.semS + 1)
  }

  /** What has been copied in and not yet out: the contents of the queue. */
  function Queue<M>(b: Box<M>): seq<M>
  {
    if |b.received| <= |b.sent| then b.sent[|b.received|..] else []
  }

  function Inside<M>(p: Phase<M>): int
  {
    if p.Idle? then 0 else 1
  }

  function None<M>(p: Phase<M>): int
  {
    0
  }

  /** What a thread at its place can rely on. */
  predicate ThreadSees<M(==)>(b: Box<M>, p: Phase<M>)
  {
    match p
    case Idle => true
    case Putting(_, copied) => Queue(b) == if copied then [b.slot] else []
    case Getting(copied) => Queue(b) == if copied then [] else [b.slot]
  }

  ghost predicate Inv<M>(b: Box<M>)
  {
    && 0 <= b.semS && 0 <= b.semR
    && b.semS + b.semR + Sum(b.threads, Inside, 0) == 1
    && |b.received| <= |b.sent| && b.received == b.sent[..|b.received|]
    && (0 < b.semS ==> Queue(b) == [])
    && (0 < b.semR ==> Queue(b) == [b.slot])
    && forall t | 0 <= t < |b.threads| :: ThreadSees(b, b.threads[t])
  }

  lemma {:induction false} SumNone<M>(s: seq<Phase<M>>)
    ensures Sum(s, None, 0) == 0
  {
    if s != [] { SumNone(s[1..]); }
  }

  /** While one thread is inside, both semaphores are 0 and all others are idle. */
  lemma Alone<M>(b: Box<M>, t: nat)
    requires Inv(b) && t < |b.threads| && !b.threads[t].Idle?
    ensures b.semS == b.semR == 0
    ensures forall u | 0 <= u < |b.threads| && u != t :: b.threads[u].Idle?
  {
    SumAtLeast(b.threads, Inside, 0, t);
    forall u | 0 <= u < |b.threads| && u != t ensures b.threads[u].Idle? {
      SumNone(b.threads);
      SumGap(b.threads, None, Inside, 0, if t < u then t else u, if t < u then u else t);
    }
  }

  lemma BeginKeepsInv<M>(b: Box<M>, a: Action<M>)
    requires Inv(b) && Possible(b, a) && !a.Go?
    ensures Inv(Act(b, a)) && Queue(Act(b, a)) == Queue(b)
  {
    var b' := Act(b, a);
    SumUpdate(b.threads, a.t, b'.threads[a.t], Inside, 0);
    forall u | 0 <= u < |b.threads| ensures ThreadSees(b', b'.threads[u]) {
      SumAtLeast(b.threads, Inside, 0, u);
    }
  }

  lemma GoKeepsInv<M>(b: Box<M>, t: nat)
    requires Inv(b) && Possible(b, Go(t))
    ensures Inv(Act(b, Go(t)))
  {
    var b' := Act(b, Go(t));
    Alone(b, t);
    assert ThreadSees(b, b.threads[t]);
    SumUpdate(b.threads, t, b'.threads[t], Inside, 0);
    assert forall u | 0 <= u < |b.threads| && u != t :: b'.threads[u].Idle?;
    assert |Queue(b)| == |b.sent| - |b.received|;
    if b.threads[t] == Getting(false) {
      assert b.sent[|b.received|] == Queue(b)[0] == b.slot;
      assert b.sent[..|b.received| + 1] == b.sent[..|b.received|] + [b.slot];
    }
  }

  /** Each step is one step of the queue of capacity one: a copy in appends to
      an empty queue, a copy out takes the only element, the rest do nothing. */
  lemma StepRefinesQueue<M>(b: Box<M>, a: Action<M>)
    requires Inv(b) && Possible(b, a)
    ensures Inv(Act(b, a)) && |Queue(b)| <= 1
    ensures var b' := Act(b, a);
            if a.Go? && b.threads[a.t].Putting? && !b.threads[a.t].copied then
              Queue(b) == [] && Queue(b') == [b.threads[a.t].message] && b'.received == b.received
            else if a.Go? && b.threads[a.t] == Getting(false) then
              Queue(b) == [b'.received[|b.received|]] && Queue(b') == [] && b'.sent == b.sent
            else Queue(b') == Queue(b) && b'.sent == b.sent && b'.received == b.received
  {
    if a.Go? {
      Alone(b, a.t);
      GoKeepsInv(b, a.t);
      assert ThreadSees(b, b.threads[a.t]);
    } else {
      BeginKeepsInv(b, a);
    }
  }

  function Run<M>(b: Box<M>, actions: seq<Action<M>>): Outcome<Box<M>>
    decreases |actions|
  {
    if actions == [] then Reached(b)
    else if Possible(b, actions[0]) then Run(Act(b, actions[0]), actions[1..])
    else Impossible
  }

  lemma {:induction false} RunKeepsInv<M>(b: Box<M>, actions: seq<Action<M>>)
    requires Inv(b) && Run(b, actions).Reached?
    ensures Inv(Run(b, actions).state)
    decreases |actions|
  {
    if actions != [] {
      StepRefinesQueue(b, actions[0]);
      RunKeepsInv(Act(b, actions[0]), actions[1..]);
    }
  }

  /** Whatever the threads do, every message is received at most once,
      unmodified and in the order of deposit, at most one is on its way, and
      the two semaphores and the threads inside share a single permit. */
  lemma FirstInFirstOut<M>(threads: nat, slot: M, actions: seq<Action<M>>)
    requires Run(Fresh(threads, slot), actions).Reached?
    ensures var b := Run(Fresh(threads, slot), actions).state;
            b.received <= b.sent && |b.sent| <= |b.received| + 1
            && b.semS + b.semR + Sum(b.threads, Inside, 0) == 1
  {
    var b0 := Fresh(threads, slot);
    SumAtLeast(b0.threads, Inside, 0, threads);
    SumAtMost(b0.threads, Inside, 0);
    RunKeepsInv(b0, actions);
    var b := Run(b0, actions).state;
    if t :| 0 <= t < |b.threads| && !b.threads[t].Idle? {
      assert ThreadSees(b, b.threads[t]);
    } else {
      SumAtMost(b.threads, Inside, 0);
    }
    assert |Queue(b)| == |b.sent| - |b.received|;
  }
}
