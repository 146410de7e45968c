/** setpriority and getpriority over a process, a process group or a user. */
module Priority {
  import opened Errors

  const PRIO_PROCESS := 0
  const PRIO_PGRP := 1
  const PRIO_USER := 2

  /** What is answered for one task: whether the caller has the capability over
      it, whether it may lower its nice value, and what the security module says. */
  datatype Answers = Answers(capable: bool, canNice: bool, hook: int)

  class Task {
    const pid: int
    const pgrp: int
    const uid: int
    const euid: int
    const space: int
    var nice: int

    constructor (pid: int, pgrp: int, uid: int, euid: int, space: int, nice: int)
      ensures this.pid == pid && this.pgrp == pgrp && this.uid == uid && this.euid == euid
      ensures this.space == space && this.nice == nice
    {
      this.pid, this.pgrp, this.uid, this.euid, this.space, this.nice := pid, pgrp, uid, euid, space, nice;
    }

    /** error is the code so far; a task that accepts turns "nothing found" into
        success and leaves an earlier refusal standing. */
    method SetOnePrio(current: Task, niceval: int, error: int, a: Answers) returns (err: int)
      modifies this`nice
      ensures var refusal := Refusal(this, old(nice), current, niceval, a);
              err == (if refusal != 0 then refusal else if error == ESRCH then 0 else error)
              && nice == (if refusal == 0 then niceval else old(nice))
      ensures nice == niceval || nice == old(nice)
      ensures nice < old(nice) ==> a.canNice
      ensures nice != old(nice) ==> a.capable || Friendly(current, this)
    {
      err := error;
      if !(space == current.space && (uid == current.euid || euid == current.euid)) && !a.capable {
        return EPERM;
      }
      if niceval < nice && !a.canNice {
        return EACCES;
      }
      if a.hook != 0 {
        return a.hook;
      }
      if err == ESRCH {
        err := 0;
      }
      nice := niceval;
    }
  }

  /** The code a task with this nice value refuses a new one with, or 0. */
  function Refusal(t: Task, nice: int, current: Task, niceval: int, a: Answers): int
  {
    if !a.capable && (t.space != current.space || current.euid !in {t.uid, t.euid}) then EPERM
    else if niceval < nice && !a.canNice then EACCES
    else a.hook
  }

  /** The caller acts under the real or the effective id of the task's user. */
  predicate Friendly(current: Task, t: Task)
  {
    current.space == t.space && (current.euid == t.uid || current.euid == t.euid)
  }

  /** Whether the call is about this task. known says whether anybody is logged
      under the user id asked for. */
  predicate Matches(t: Task, current: Task, which: int, who: int, known: bool)
  {
    if which == PRIO_PROCESS then t.pid == if who == 0 then current.pid else who
    else if which == PRIO_PGRP then t.pgrp == if who == 0 then current.pgrp else who
    else if who == 0 || who == current.uid then t.uid == current.uid
    else known && t.uid == who
  }

  /** The tasks in the order in which the kernel walks through them. */
  predicate Listed(tasks: seq<Task>, current: Task)
  {
    current in tasks && forall i, j | 0 <= i < j < |tasks| :: tasks[i] != tasks[j] && tasks[i].pid != tasks[j].pid
  }

  predicate NiceInRange(tasks: seq<Task>)
    reads tasks
  {
    forall t | t in tasks :: -20 <= t.nice <= 19
  }

  function Clamped(niceval: int): (c: int)
    ensures -20 <= c <= 19
    ensures -20 <= niceval <= 19 ==> c == niceval
  {
    if niceval < -20 then -20 else if niceval > 19 then 19 else niceval
  }

  // ----- the code of a call, from what the tasks answer

  ghost function Chosen(tasks: seq<Task>, current: Task, which: int, who: int, known: bool): (c: seq<bool>)
    ensures |c| == |tasks|
    ensures forall i | 0 <= i < |c| :: c[i] == Matches(tasks[i], current, which, who, known)
  {
    seq(|tasks|, i requires 0 <= i < |tasks| => Matches(tasks[i], current, which, who, known))
  }

  ghost function Nices(tasks: seq<Task>): (v: seq<int>)
    reads tasks
    ensures |v| == |tasks|
    ensures forall i | 0 <= i < |v| :: v[i] == tasks[i].nice
  {
    seq(|tasks|, i requires 0 <= i < |tasks| reads tasks => tasks[i].nice)
  }

  ghost function Refusals(tasks: seq<Task>, nices: seq<int>, current: Task, niceval: int, a: seq<Answers>): (r: seq<int>)
    requires |tasks| == |nices| == |a|
    ensures |r| == |tasks|
    ensures forall i | 0 <= i < |r| :: r[i] == Refusal(tasks[i], nices[i], current, niceval, a[i])
  {
    seq(|tasks|, i requires 0 <= i < |tasks| => Refusal(tasks[i], nices[i], current, niceval, a[i]))
  }

  /** The code after the first n tasks. */
  function Code(chosen: seq<bool>, refusals: seq<int>, n: nat): int
    requires n <= |chosen| == |refusals|
  {
    if n == 0 then ESRCH
    else if !chosen[n - 1] then Code(chosen, refusals, n - 1)
    else if refusals[n - 1] != 0 then refusals[n - 1]
    else if Code(chosen, refusals, n - 1) == ESRCH then 0
    else Code(chosen, refusals, n - 1)
  }

  /** Task j is the last one to refuse. */
  predicate LastRefusal(chosen: seq<bool>, refusals: seq<int>, n: nat, j: nat)
    requires n <= |chosen| == |refusals|
  {
    j < n && chosen[j] && refusals[j] != 0
    && forall k | j < k < n :: chosen[k] ==> refusals[k] == 0
  }

  predicate SomeChosen(chosen: seq<bool>, from: nat, n: nat)
    requires n <= |chosen|
  {
    exists k | from <= k < n :: chosen[k]
  }

  predicate NoRefusal(chosen: seq<bool>, refusals: seq<int>, n: nat)
    requires n <= |chosen| == |refusals|
  {
    forall k | 0 <= k < n :: chosen[k] ==> refusals[k] == 0
  }

  /** The last refusal decides, except that its code -ESRCH is forgotten when a
      later task accepts. */
  lemma {:induction false} LastRefusalDecides(chosen: seq<bool>, refusals: seq<int>, n: nat)
    requires n <= |chosen| == |refusals|
    ensures NoRefusal(chosen, refusals, n) ==> Code(chosen, refusals, n) == if SomeChosen(chosen, 0, n) then 0 else ESRCH
    ensures forall j: nat | LastRefusal(chosen, refusals, n, j) :: Code(chosen, refusals, n)
              == if refusals[j] == ESRCH && SomeChosen(chosen, j + 1, n) then 0 else refusals[j]
    ensures NoRefusal(chosen, refusals, n) || exists j: nat :: LastRefusal(chosen, refusals, n, j)
  {
    if n > 0 {
      LastRefusalDecides(chosen, refusals, n - 1);
      if NoRefusal(chosen, refusals, n) {
        assert NoRefusal(chosen, refusals, n - 1);
        if SomeChosen(chosen, 0, n - 1) {
          var k :| 0 <= k < n - 1 && chosen[k];
          assert 0 <= k < n && chosen[k];
        }
      } else if chosen[n - 1] && refusals[n - 1] != 0 {
        assert LastRefusal(chosen, refusals, n, n - 1);
      } else {
        var j: nat :| LastRefusal(chosen, refusals, n - 1, j);
        assert LastRefusal(chosen, refusals, n, j);
      }
      forall j: nat | LastRefusal(chosen, refusals, n, j)
        ensures Code(chosen, refusals, n)
                == if refusals[j] == ESRCH && SomeChosen(chosen, j + 1, n) then 0 else refusals[j]
      {
        if j < n - 1 {
          assert LastRefusal(chosen, refusals, n - 1, j);
          if SomeChosen(chosen, j + 1, n - 1) {
            var k :| j + 1 <= k < n - 1 && chosen[k];
            assert j + 1 <= k < n && chosen[k];
          }
        }
      }
    }
  }

  /** What the manual promises: -ESRCH when no task is found, 0 when some are and
      all accept, and otherwise some other code. */
  predicate PlainAnswer(chosen: seq<bool>, refusals: seq<int>, code: int)
    requires |chosen| == |refusals|
  {
    (code == ESRCH <==> !SomeChosen(chosen, 0, |chosen|))
    && (code == 0 <==> SomeChosen(chosen, 0, |chosen|) && NoRefusal(chosen, refusals, |chosen|))
  }

  /** That promise is kept exactly when the last refusal, if there is one, is not
      -ESRCH, a code only the security module could give. */
  lemma PlainAnswerIff(chosen: seq<bool>, refusals: seq<int>)
    requires |chosen| == |refusals|
    ensures PlainAnswer(chosen, refusals, Code(chosen, refusals, |chosen|))
            <==> forall j: nat | LastRefusal(chosen, refusals, |chosen|, j) :: refusals[j] != ESRCH
  {
    var n := |chosen|;
    LastRefusalDecides(chosen, refusals, n);
    if !NoRefusal(chosen, refusals, n) {
      var j: nat :| LastRefusal(chosen, refusals, n, j);
      assert 0 <= j < n && chosen[j];
    }
  }

  /** Two tasks, of which the first refuses with -ESRCH: the call reports success. */
  lemma ForgottenRefusal()
    ensures Code([true, true], [ESRCH, 0], 2) == 0
    ensures !PlainAnswer([true, true], [ESRCH, 0], Code([true, true], [ESRCH, 0], 2))
  {
    var chosen, refusals := [true, true], [ESRCH, 0];
    assert Code(chosen, refusals, 1) == ESRCH;
    assert chosen[0] && refusals[0] != 0;
  }

  // ----- the calls

  /** The nice values after the first n tasks have been visited. */
  ghost predicate Visited(tasks: seq<Task>, chosen: seq<bool>, refusals: seq<int>, before: seq<int>, niceval: int, n: nat)
    requires |chosen| == |refusals| == |before| == |tasks|
    reads tasks
  {
    forall i | 0 <= i < |tasks| ::
      tasks[i].nice == if i < n && chosen[i] && refusals[i] == 0 then niceval else before[i]
  }

  /** The whole call: what is asked of which tasks, and where it starts from. */
  ghost predicate Call(tasks: seq<Task>, current: Task, niceval: int, a: seq<Answers>,
                       chosen: seq<bool>, refusals: seq<int>, before: seq<int>)
  {
    Listed(tasks, current) && |a| == |chosen| == |before| == |tasks|
    && refusals == Refusals(tasks, before, current, niceval, a)
  }

  /** One more task: the loop body of setpriority. */
  method Visit(tasks: seq<Task>, current: Task, i: nat, niceval: int, error: int, a: seq<Answers>,
               ghost chosen: seq<bool>, ghost refusals: seq<int>, ghost before: seq<int>)
    returns (err: int)
    requires Call(tasks, current, niceval, a, chosen, refusals, before)
    requires i < |tasks| && chosen[i] && Visited(tasks, chosen, refusals, before, niceval, i)
    requires error == Code(chosen, refusals, i)
    modifies tasks
    ensures Visited(tasks, chosen, refusals, before, niceval, i + 1)
    ensures err == Code(chosen, refusals, i + 1)
  {
    err := tasks[i].SetOnePrio(current, niceval, error, a[i]);
    forall k | 0 <= k < |tasks| && k != i ensures tasks[k] != tasks[i] {
      assert k < i || i < k;
    }
  }

  method SetProcess(tasks: seq<Task>, current: Task, pid: int, niceval: int, a: seq<Answers>,
                    ghost chosen: seq<bool>, ghost refusals: seq<int>, ghost before: seq<int>)
    returns (err: int)
    requires Call(tasks, current, niceval, a, chosen, refusals, before)
    requires Visited(tasks, chosen, refusals, before, niceval, 0)
    requires forall i | 0 <= i < |tasks| :: chosen[i] == (tasks[i].pid == pid)
    modifies tasks
    ensures Visited(tasks, chosen, refusals, before, niceval, |tasks|)
    ensures err == Code(chosen, refusals, |tasks|)
  {
    err := ESRCH;
    if exists i :: 0 <= i < |tasks| && tasks[i].pid == pid {
      var i :| 0 <= i < |tasks| && tasks[i].pid == pid;
      SkipAll(chosen, refusals, 0, i);
      err := Visit(tasks, current, i, niceval, err, a, chosen, refusals, before);
      SkipAll(chosen, refusals, i + 1, |tasks|);
    } else {
      SkipAll(chosen, refusals, 0, |tasks|);
    }
  }

  method SetGroup(tasks: seq<Task>, current: Task, pgrp: int, niceval: int, a: seq<Answers>,
                  ghost chosen: seq<bool>, ghost refusals: seq<int>, ghost before: seq<int>)
    returns (err: int)
    requires Call(tasks, current, niceval, a, chosen, refusals, before)
    requires Visited(tasks, chosen, refusals, before, niceval, 0)
    requires forall i | 0 <= i < |tasks| :: chosen[i] == (tasks[i].pgrp == pgrp)
    modifies tasks
    ensures Visited(tasks, chosen, refusals, before, niceval, |tasks|)
    ensures err == Code(chosen, refusals, |tasks|)
  {
    err := ESRCH;
    for i := 0 to |tasks|
      invariant Visited(tasks, chosen, refusals, before, niceval, i)
      invariant err == Code(chosen, refusals, i)
    {
      if tasks[i].pgrp == pgrp {
        err := Visit(tasks, current, i, niceval, err, a, chosen, refusals, before);
      }
    }
  }

  method SetUser(tasks: seq<Task>, current: Task, uid: int, niceval: int, a: seq<Answers>,
                 ghost chosen: seq<bool>, ghost refusals: seq<int>, ghost before: seq<int>)
    returns (err: int)
    requires Call(tasks, current, niceval, a, chosen, refusals, before)
    requires Visited(tasks, chosen, refusals, before, niceval, 0)
    requires forall i | 0 <= i < |tasks| :: chosen[i] == (tasks[i].uid == uid)
    modifies tasks
    ensures Visited(tasks, chosen, refusals, before, niceval, |tasks|)
    ensures err == Code(chosen, refusals, |tasks|)
  {
    err := ESRCH;
    for i := 0 to |tasks|
      invariant Visited(tasks, chosen, refusals, before, niceval, i)
      invariant err == Code(chosen, refusals, i)
    {
      if tasks[i].uid == uid {
        err := Visit(tasks, current, i, niceval, err, a, chosen, refusals, before);
      }
    }
  }

  method SetPriority(tasks: seq<Task>, current: Task, which: int, who: int, niceval: int,
                     known: bool, a: seq<Answers>)
    returns (err: int)
    requires Listed(tasks, current) && |a| == |tasks|
    modifies tasks
    ensures var chosen := Chosen(tasks, current, which, who, known);
            var refusals := Refusals(tasks, old(Nices(tasks)), current, Clamped(niceval), a);
            if PRIO_PROCESS <= which <= PRIO_USER
            then err == Code(chosen, refusals, |tasks|)
                 && Visited(tasks, chosen, refusals, old(Nices(tasks)), Clamped(niceval), |tasks|)
            else err == EINVAL && Nices(tasks) == old(Nices(tasks))
    ensures Nices(tasks) == AfterCall(tasks, old(Nices(tasks)), current, Request(which, who, niceval, known, a))
    ensures old(NiceInRange(tasks)) ==> NiceInRange(tasks)
  {
    hide Refusal, AfterOne;
    ghost var before := Nices(tasks);
    ghost var q := Request(which, who, niceval, known, a);
    if which > PRIO_USER || which < PRIO_PROCESS {
      NoCall(tasks, before, current, q);
      return EINVAL;
    }
    var value := niceval;
    if value < -20 {
      value := -20;
    }
    if value > 19 {
      value := 19;
    }
    ghost var chosen := Chosen(tasks, current, which, who, known);
    ghost var refusals := Refusals(tasks, before, current, value, a);
    if which == PRIO_PROCESS {
      err := SetProcess(tasks, current, if who != 0 then who else current.pid, value, a, chosen, refusals, before);
    } else if which == PRIO_PGRP {
      err := SetGroup(tasks, current, if who != 0 then who else current.pgrp, value, a, chosen, refusals, before);
    } else if who != 0 && who != current.uid && !known {
      SkipAll(chosen, refusals, 0, |tasks|);
      err := ESRCH;
    } else {
      err := SetUser(tasks, current, if who != 0 then who else current.uid, value, a, chosen, refusals, before);
    }
    WholeScan(tasks, before, current, q);
  }

  lemma NoCall(tasks: seq<Task>, before: seq<int>, current: Task, q: Request)
    requires |before| == |tasks| == |q.a| && !(PRIO_PROCESS <= q.which <= PRIO_USER)
    ensures AfterCall(tasks, before, current, q) == before
  {
  }

  /** The scan of the tasks leaves the nice values of the specification. */
  lemma WholeScan(tasks: seq<Task>, before: seq<int>, current: Task, q: Request)
    requires |before| == |tasks| == |q.a| && PRIO_PROCESS <= q.which <= PRIO_USER
    requires Visited(tasks, Chosen(tasks, current, q.which, q.who, q.known),
                     Refusals(tasks, before, current, Clamped(q.niceval), q.a), before, Clamped(q.niceval), |tasks|)
    ensures Nices(tasks) == AfterCall(tasks, before, current, q)
    ensures (forall v | v in before :: -20 <= v <= 19) ==> NiceInRange(tasks)
  {
    hide Refusal, Matches, Clamped;
    forall t | t in tasks && (forall v | v in before :: -20 <= v <= 19) ensures -20 <= t.nice <= 19 {
      var i :| 0 <= i < |tasks| && tasks[i] == t;
      assert before[i] in before;
    }
  }

  lemma {:induction false} SkipAll(chosen: seq<bool>, refusals: seq<int>, from: nat, n: nat)
    requires from <= n <= |chosen| == |refusals| && !SomeChosen(chosen, from, n)
    ensures Code(chosen, refusals, n) == Code(chosen, refusals, from)
    ensures forall k | from <= k < n :: !chosen[k]
  {
    if from < n {
      assert !chosen[n - 1];
      SkipAll(chosen, refusals, from, n - 1);
    }
  }

  /** The best priority among the first n tasks as far as the call is about them,
      turned into 40..1. */
  ghost predicate Highest(tasks: seq<Task>, chosen: seq<bool>, n: nat, r: int)
    requires n <= |chosen| == |tasks|
    reads tasks
  {
    (exists i :: 0 <= i < n && chosen[i] && r == 20 - tasks[i].nice)
    && forall i | 0 <= i < n && chosen[i] :: 20 - tasks[i].nice <= r
  }

  ghost predicate Answer(tasks: seq<Task>, chosen: seq<bool>, n: nat, r: int)
    requires n <= |chosen| == |tasks|
    reads tasks
  {
    if SomeChosen(chosen, 0, n) then 1 <= r <= 40 && Highest(tasks, chosen, n, r) else r == ESRCH
  }

  method GetGroup(tasks: seq<Task>, pgrp: int, ghost chosen: seq<bool>) returns (r: int)
    requires NiceInRange(tasks) && |chosen| == |tasks|
    requires forall i | 0 <= i < |tasks| :: chosen[i] == (tasks[i].pgrp == pgrp)
    ensures Answer(tasks, chosen, |tasks|, r)
  {
    r := ESRCH;
    for i := 0 to |tasks|
      invariant Answer(tasks, chosen, i, r)
    {
      if tasks[i].pgrp == pgrp {
        var niceval := 20 - tasks[i].nice;
        MoreChosen(tasks, chosen, i, r);
        if niceval > r {
          r := niceval;
        }
      }
    }
  }

  method GetUser(tasks: seq<Task>, uid: int, ghost chosen: seq<bool>) returns (r: int)
    requires NiceInRange(tasks) && |chosen| == |tasks|
    requires forall i | 0 <= i < |tasks| :: chosen[i] == (tasks[i].uid == uid)
    ensures Answer(tasks, chosen, |tasks|, r)
  {
    r := ESRCH;
    for i := 0 to |tasks|
      invariant Answer(tasks, chosen, i, r)
    {
      if tasks[i].uid == uid {
        var niceval := 20 - tasks[i].nice;
        MoreChosen(tasks, chosen, i, r);
        if niceval > r {
          r := niceval;
        }
      }
    }
  }

  lemma MoreChosen(tasks: seq<Task>, chosen: seq<bool>, i: nat, r: int)
    requires NiceInRange(tasks) && i < |chosen| == |tasks|
    requires chosen[i] && Answer(tasks, chosen, i, r)
    ensures SomeChosen(chosen, 0, i + 1)
    ensures var niceval := 20 - tasks[i].nice;
            Answer(tasks, chosen, i + 1, if niceval > r then niceval else r)
  {
    assert tasks[i] in tasks;
    var r' := if 20 - tasks[i].nice > r then 20 - tasks[i].nice else r;
    if SomeChosen(chosen, 0, i) {
      var k :| 0 <= k < i && chosen[k] && r == 20 - tasks[k].nice;
      assert 0 <= k < i + 1 && chosen[k];
    }
    assert Highest(tasks, chosen, i + 1, r');
  }

  method GetPriority(tasks: seq<Task>, current: Task, which: int, who: int, known: bool) returns (r: int)
    requires Listed(tasks, current) && NiceInRange(tasks)
    ensures var chosen := Chosen(tasks, current, which, who, known);
            if PRIO_PROCESS <= which <= PRIO_USER then Answer(tasks, chosen, |tasks|, r) else r == EINVAL
    ensures PRIO_PROCESS <= which <= PRIO_USER ==>
              forall t | t in tasks && Matches(t, current, which, who, known) :: 20 - t.nice <= r
    ensures PRIO_PROCESS <= which <= PRIO_USER ==>
              r == ESRCH || exists t :: t in tasks && Matches(t, current, which, who, known) && 20 - t.nice == r
  {
    if which > PRIO_USER || which < PRIO_PROCESS {
      return EINVAL;
    }
    r := ESRCH;
    ghost var chosen := Chosen(tasks, current, which, who, known);
    if which == PRIO_PROCESS {
      var pid := if who != 0 then who else current.pid;
      if exists i :: 0 <= i < |tasks| && tasks[i].pid == pid {
        var i :| 0 <= i < |tasks| && tasks[i].pid == pid;
        assert chosen[i] && tasks[i] in tasks;
        var niceval := 20 - tasks[i].nice;
        if niceval > r {
          r := niceval;
        }
        OnlyOne(tasks, chosen, i, r);
      }
    } else if which == PRIO_PGRP {
      r := GetGroup(tasks, if who != 0 then who else current.pgrp, chosen);
    } else if who == 0 || who == current.uid || known {
      r := GetUser(tasks, if who != 0 then who else current.uid, chosen);
    }
  }

  lemma OnlyOne(tasks: seq<Task>, chosen: seq<bool>, i: nat, r: int)
    requires |chosen| == |tasks| && i < |tasks| && chosen[i]
    requires forall k | 0 <= k < |tasks| :: chosen[k] ==> k == i
    requires NiceInRange(tasks) && r == 20 - tasks[i].nice
    ensures Answer(tasks, chosen, |tasks|, r)
  {
    assert tasks[i] in tasks;
    assert Highest(tasks, chosen, |tasks|, r);
  }

  /** When setpriority reports success and the last refusal, if there is one, is
      not -ESRCH, the one answer getpriority can give on the same tasks is what
      was set. */
  lemma {:induction false} ReadsBack(tasks: seq<Task>, chosen: seq<bool>, refusals: seq<int>, before: seq<int>,
                                     niceval: int, r: int)
    requires |chosen| == |refusals| == |before| == |tasks|
    requires Visited(tasks, chosen, refusals, before, Clamped(niceval), |tasks|)
    requires Code(chosen, refusals, |tasks|) == 0
    requires forall j: nat | LastRefusal(chosen, refusals, |chosen|, j) :: refusals[j] != ESRCH
    ensures Answer(tasks, chosen, |tasks|, r) <==> r == 20 - Clamped(niceval)
  {
    PlainAnswerIff(chosen, refusals);
    AllAlike(tasks, chosen, Clamped(niceval), r);
  }

  lemma AllAlike(tasks: seq<Task>, chosen: seq<bool>, nice: int, r: int)
    requires |chosen| == |tasks| && SomeChosen(chosen, 0, |tasks|) && -20 <= nice <= 19
    requires forall i | 0 <= i < |tasks| && chosen[i] :: tasks[i].nice == nice
    ensures Answer(tasks, chosen, |tasks|, r) <==> r == 20 - nice
  {
    var k :| 0 <= k < |tasks| && chosen[k];
    assert tasks[k].nice == nice;
  }

  // ----- runs of setpriority

  /** What a call asks for, and what each of the tasks listed answers. */
  datatype Request = Request(which: int, who: int, niceval: int, known: bool, a: seq<Answers>)

  /** The nice values after a call. */
  function AfterCall(tasks: seq<Task>, nices: seq<int>, current: Task, q: Request): (after: seq<int>)
    requires |nices| == |tasks| == |q.a|
    ensures |after| == |tasks|
    ensures forall i | 0 <= i < |after| :: after[i] == AfterOne(tasks[i], nices[i], current, q, q.a[i])
  {
    seq(|tasks|, i requires 0 <= i < |tasks| => AfterOne(tasks[i], nices[i], current, q, q.a[i]))
  }

  function AfterOne(t: Task, nice: int, current: Task, q: Request, a: Answers): int
  {
    if PRIO_PROCESS <= q.which <= PRIO_USER && Matches(t, current, q.which, q.who, q.known)
       && Refusal(t, nice, current, Clamped(q.niceval), a) == 0
    then Clamped(q.niceval) else nice
  }

  /** A call by one of the tasks listed. */
  datatype SetCall = SetCall(caller: nat, request: Request)

  predicate Fits(tasks: seq<Task>, c: SetCall)
  {
    c.caller < |tasks| == |c.request.a|
  }

  function Run(tasks: seq<Task>, nices: seq<int>, calls: seq<SetCall>): (after: seq<int>)
    requires |nices| == |tasks| && forall c | c in calls :: Fits(tasks, c)
    ensures |after| == |tasks|
    decreases |calls|
  {
    if calls == [] then nices
    else
      assert Fits(tasks, calls[0]);
      Run(tasks, AfterCall(tasks, nices, tasks[calls[0].caller], calls[0].request), calls[1..])
  }

  /** Task i does not let the caller lower its nice value. */
  predicate NotNicer(tasks: seq<Task>, c: SetCall, i: nat)
  {
    Fits(tasks, c) && (i < |tasks| ==> !c.request.a[i].canNice)
  }

  /** The caller is a stranger to task i and has no capability over it. */
  predicate Stranger(tasks: seq<Task>, c: SetCall, i: nat)
  {
    Fits(tasks, c) && (i < |tasks| ==> !c.request.a[i].capable && !Friendly(tasks[c.caller], tasks[i]))
  }

  /** Without the permission no run ever lowers a nice value. */
  lemma {:induction false} NiceNeverFalls(tasks: seq<Task>, nices: seq<int>, calls: seq<SetCall>, i: nat)
    requires |nices| == |tasks| && i < |tasks| && forall c | c in calls :: Fits(tasks, c)
    requires forall c | c in calls :: NotNicer(tasks, c, i)
    ensures nices[i] <= Run(tasks, nices, calls)[i]
    decreases |calls|
  {
    if calls != [] {
      assert NotNicer(tasks, calls[0], i);
      NiceNeverFalls(tasks, AfterCall(tasks, nices, tasks[calls[0].caller], calls[0].request), calls[1..], i);
    }
  }

  /** Without the capability no run touches a task of another user or space. */
  lemma {:induction false} StrangersLeaveAlone(tasks: seq<Task>, nices: seq<int>, calls: seq<SetCall>, i: nat)
    requires |nices| == |tasks| && i < |tasks| && forall c | c in calls :: Fits(tasks, c)
    requires forall c | c in calls :: Stranger(tasks, c, i)
    ensures Run(tasks, nices, calls)[i] == nices[i]
    decreases |calls|
  {
    if calls != [] {
      assert Stranger(tasks, calls[0], i);
      StrangersLeaveAlone(tasks, AfterCall(tasks, nices, tasks[calls[0].caller], calls[0].request), calls[1..], i);
    }
  }

  lemma {:induction false} RunInRange(tasks: seq<Task>, nices: seq<int>, calls: seq<SetCall>, i: nat)
    requires |nices| == |tasks| && i < |tasks| && forall c | c in calls :: Fits(tasks, c)
    requires -20 <= nices[i] <= 19
    ensures -20 <= Run(tasks, nices, calls)[i] <= 19
    decreases |calls|
  {
    if calls != [] {
      assert Fits(tasks, calls[0]);
      RunInRange(tasks, AfterCall(tasks, nices, tasks[calls[0].caller], calls[0].request), calls[1..], i);
    }
  }

  /** A call by task k with the given powers over task i. */
  predicate From(tasks: seq<Task>, c: SetCall, k: nat, i: nat, capable: bool, canNice: bool)
  {
    Fits(tasks, c) && c.caller == k
    && (i < |tasks| ==> c.request.a[i].capable == capable && c.request.a[i].canNice == canNice)
  }

  ghost predicate CanRenice(tasks: seq<Task>, nices: seq<int>, k: nat, i: nat, capable: bool, canNice: bool, v: int)
    requires |nices| == |tasks| && i < |tasks|
  {
    exists calls: seq<SetCall> ::
      (forall c | c in calls :: From(tasks, c, k, i, capable, canNice))
      && (forall c | c in calls :: Fits(tasks, c))
      && Run(tasks, nices, calls)[i] == v
  }

  /** What task k can make of the nice value of task i: anything in range if it is
      of the same user or has the capability, but nothing below the present
      value without the permission; otherwise nothing at all. */
  lemma {:induction false} ReachableNices(tasks: seq<Task>, nices: seq<int>, k: nat, i: nat,
                                          capable: bool, canNice: bool, v: int)
    requires |nices| == |tasks| && k < |tasks| && i < |tasks| && -20 <= nices[i] <= 19 && tasks[i].pid != 0
    ensures CanRenice(tasks, nices, k, i, capable, canNice, v) <==>
              v == nices[i]
              || ((capable || Friendly(tasks[k], tasks[i])) && -20 <= v <= 19 && (nices[i] <= v || canNice))
  {
    if CanRenice(tasks, nices, k, i, capable, canNice, v) {
      ReniceIsBounded(tasks, nices, k, i, capable, canNice, v);
    }
    if v == nices[i] {
      var none: seq<SetCall> := [];
      assert Run(tasks, nices, none)[i] == v;
    } else if (capable || Friendly(tasks[k], tasks[i])) && -20 <= v <= 19 && (nices[i] <= v || canNice) {
      var a := seq(|tasks|, j => Answers(capable, canNice, 0));
      var c := SetCall(k, Request(PRIO_PROCESS, tasks[i].pid, v, true, a));
      assert From(tasks, c, k, i, capable, canNice);
      assert [c][1..] == [];
      assert Run(tasks, nices, [c]) == AfterCall(tasks, nices, tasks[k], c.request);
      assert Run(tasks, nices, [c])[i] == v;
    }
  }

  lemma ReniceIsBounded(tasks: seq<Task>, nices: seq<int>, k: nat, i: nat, capable: bool, canNice: bool, v: int)
    requires |nices| == |tasks| && k < |tasks| && i < |tasks| && -20 <= nices[i] <= 19
    requires CanRenice(tasks, nices, k, i, capable, canNice, v)
    ensures v == nices[i]
            || ((capable || Friendly(tasks[k], tasks[i])) && -20 <= v <= 19 && (nices[i] <= v || canNice))
  {
    var calls: seq<SetCall> :|
      (forall c | c in calls :: From(tasks, c, k, i, capable, canNice))
      && (forall c | c in calls :: Fits(tasks, c))
      && Run(tasks, nices, calls)[i] == v;
    RunInRange(tasks, nices, calls, i);
    if !canNice {
      forall c | c in calls ensures NotNicer(tasks, c, i) { assert From(tasks, c, k, i, capable, canNice); }
      NiceNeverFalls(tasks, nices, calls, i);
    }
    if !capable && !Friendly(tasks[k], tasks[i]) {
      forall c | c in calls ensures Stranger(tasks, c, i) { assert From(tasks, c, k, i, capable, canNice); }
      StrangersLeaveAlone(tasks, nices, calls, i);
    }
  }

  /** A refusal of the security module is respected. */
  lemma HookRespected(t: Task, nice: int, current: Task, q: Request, a: Answers)
    requires a.hook != 0
    ensures AfterOne(t, nice, current, q, a) == nice
  {
  }

  // ----- whom a call is about

  /** A zero stands for the caller, its group or its user. Calls about a process
      are about one task; those about a group or a user do not tell its members
      apart; a user nobody is logged under has none. */
  lemma Selection(tasks: seq<Task>, current: Task, which: int, who: int, known: bool, i: nat, j: nat)
    requires Listed(tasks, current) && i < |tasks| && j < |tasks|
    ensures Matches(current, current, which, 0, known)
    ensures which == PRIO_PROCESS ==>
              (Matches(tasks[i], current, which, who, known) && Matches(tasks[j], current, which, who, known) ==> i == j)
              && (who != 0 ==> (Matches(tasks[i], current, which, who, known) <==> tasks[i].pid == who))
    ensures which == PRIO_PGRP ==>
              (Matches(tasks[i], current, which, who, known) && Matches(tasks[j], current, which, who, known)
               ==> tasks[i].pgrp == tasks[j].pgrp)
              && (who != 0 ==> (Matches(tasks[i], current, which, who, known) <==> tasks[i].pgrp == who))
    ensures which == PRIO_USER ==>
              (Matches(tasks[i], current, which, who, known) && Matches(tasks[j], current, which, who, known)
               ==> tasks[i].uid == tasks[j].uid)
              && (who != 0 && known ==> (Matches(tasks[i], current, which, who, known) <==> tasks[i].uid == who))
              && (!known && who !in {0, current.uid} ==> !Matches(tasks[i], current, which, who, known))
  {
  }

  /** The clamped value is the one in range nearest to the value asked for. */
  lemma ClampedIsNearest(niceval: int, x: int)
    requires -20 <= x <= 19
    ensures Distance(niceval, Clamped(niceval)) <= Distance(niceval, x)
  {
  }

  function Distance(x: int, y: int): nat
  {
    if x < y then y - x else x - y
  }
}
