/** Process groups and sessions: setpgid and setsid, with fork, exec, exit and
    threads as the environment. */
module ProcessGroups {
  import opened Errors
  import opened Steps

  /** A process, that is a thread group leader with its signal state. */
  datatype Process = Process(pgrp: int, session: int, leader: bool, parent: int, didExec: bool)

  /** The live processes by pid, and the other threads by tid with their process. */
  datatype Table = Table(procs: map<int, Process>, threads: map<int, int>)

  // ----- what every reachable table satisfies

  /** No process group spans two sessions. */
  ghost predicate OneSession(t: Table)
  {
    forall p, q | p in t.procs && q in t.procs && t.procs[p].pgrp == t.procs[q].pgrp ::
      t.procs[p].session == t.procs[q].session
  }

  /** A session leader's session and group are its own pid. */
  ghost predicate LeadersLead(t: Table)
  {
    forall p | p in t.procs && t.procs[p].leader :: t.procs[p].session == t.procs[p].pgrp == p
  }

  /** A live process whose pid names a group is in that group's session. */
  ghost predicate NamesakesInside(t: Table)
  {
    forall p, q | p in t.procs && q in t.procs && t.procs[q].pgrp == p ::
      t.procs[q].session == t.procs[p].session
  }

  /** A live process whose pid names a session leads it. */
  ghost predicate SessionsLed(t: Table)
  {
    forall p, q | p in t.procs && q in t.procs && t.procs[q].session == p :: t.procs[p].leader
  }

  ghost predicate Consistent(t: Table)
  {
    OneSession(t) && LeadersLead(t) && NamesakesInside(t) && SessionsLed(t)
    && (forall p | p in t.procs :: p > 0 && t.procs[p].parent != p)
    && t.procs.Keys !! t.threads.Keys
  }

  // ----- when setpgid and setsid succeed

  /** POSIX.1-2017, setpgid(): the target is the caller or a child of it that has
      not executed a new image, in the caller's session and no session leader;
      the group is the target's own or one that exists in that session. */
  predicate MaySetPgid(t: Table, me: int, pid: int, pgid: int)
    requires me in t.procs
  {
    && 0 <= pgid && pid in t.procs
    && (if t.procs[pid].parent == me
        then t.procs[pid].session == t.procs[me].session && !t.procs[pid].didExec
        else pid == me)
    && !t.procs[pid].leader
    && (pgid == pid
        || exists q | q in t.procs :: t.procs[q].pgrp == pgid && t.procs[q].session == t.procs[me].session)
  }

  predicate MaySetSid(t: Table, me: int)
    requires me in t.procs
  {
    !t.procs[me].leader && forall q | q in t.procs :: t.procs[q].pgrp != me
  }

  /** The process a zero argument stands for. */
  function Or(x: int, other: int): int
  {
    if x == 0 then other else x
  }

  function Regrouped(t: Table, pid: int, pgid: int): Table
    requires pid in t.procs
  {
    t.(procs := t.procs[pid := t.procs[pid].(pgrp := pgid)])
  }

  function NewSession(t: Table, me: int): Table
    requires me in t.procs
  {
    t.(procs := t.procs[me := t.procs[me].(pgrp := me, session := me, leader := true)])
  }

  class System {
    var table: Table

    constructor (t: Table)
      ensures table == t
    {
      table := t;
    }

    /** setpgid called by process me; hook is what the security module answers. */
    method SetPgid(me: int, pidArg: int, pgidArg: int, hook: int) returns (err: int)
      requires OneSession(table) && table.procs.Keys !! table.threads.Keys && me in table.procs
      modifies this
      ensures var t, pid := old(table), Or(pidArg, me); var pgid := Or(pgidArg, pid);
              (err == 0 <==> MaySetPgid(t, me, pid, pgid) && hook == 0)
              && table == if err == 0 then Regrouped(t, pid, pgid) else t
      ensures var t, pid := old(table), Or(pidArg, me); var pgid := Or(pgidArg, pid);
              err == if pgid < 0 then EINVAL
                     else if pid !in t.procs then (if pid in t.threads then EINVAL else ESRCH)
                     else if t.procs[pid].parent != me && pid != me then ESRCH
                     else if t.procs[pid].parent == me && t.procs[pid].session != t.procs[me].session then EPERM
                     else if t.procs[pid].parent == me && t.procs[pid].didExec then EACCES
                     else if !MaySetPgid(t, me, pid, pgid) then EPERM
                     else hook
      ensures table == Happen(old(table), SetPgidCall(me, pidArg, pgidArg, hook))
      ensures err == 0 ==> Or(pidArg, me) in table.procs
                           && table.procs[Or(pidArg, me)].pgrp == Or(pgidArg, Or(pidArg, me))
    {
      var pid, pgid := pidArg, pgidArg;
      if pid == 0 {
        pid := me;
      }
      if pgid == 0 {
        pgid := pid;
      }
      if pgid < 0 {
        return EINVAL;
      }
      if pid !in table.procs && pid !in table.threads {
        return ESRCH;
      }
      if pid in table.threads {
        return EINVAL;
      }
      var p := table.procs[pid];
      if p.parent == me {
        if p.session != table.procs[me].session {
          return EPERM;
        }
        if p.didExec {
          return EACCES;
        }
      } else {
        if pid != me {
          return ESRCH;
        }
      }
      if p.leader {
        return EPERM;
      }
      if pgid != pid {
        if !(exists q | q in table.procs :: table.procs[q].pgrp == pgid) {
          return EPERM;
        }
        var g :| g in table.procs && table.procs[g].pgrp == pgid;
        if table.procs[g].session != table.procs[me].session {
          return EPERM;
        }
      }
      err := hook;
      if err != 0 {
        return;
      }
      if p.pgrp != pgid {
        table := table.(procs := table.procs[pid := p.(pgrp := pgid)]);
      }
      assert table == Regrouped(old(table), pid, pgid);
    }

    /** setsid called by process me. */
    method SetSid(me: int) returns (err: int)
      requires me in table.procs
      modifies this
      ensures err == if MaySetSid(old(table), me) then me else EPERM
      ensures table == if MaySetSid(old(table), me) then NewSession(old(table), me) else old(table)
      ensures table == Happen(old(table), SetSidCall(me))
      ensures err > 0 ==> me in table.procs && table.procs[me].leader && table.procs[me].session == table.procs[me].pgrp == me
    {
      err := EPERM;
      if table.procs[me].leader {
        return;
      }
      if exists q | q in table.procs :: table.procs[q].pgrp == me {
        return;
      }
      var p := table.procs[me].(leader := true);
      if p.session != me {
        p := p.(session := me);
      }
      if p.pgrp != me {
        p := p.(pgrp := me);
      }
      table := table.(procs := table.procs[me := p]);
      err := me;
    }
  }

  // ----- runs

  /** The calls, and the steps of the environment as far as they concern groups:
      a child inherits group and session and leads nothing; a new pid is in use
      neither as pid nor as group nor as session; children of an exiting
      process get another parent, which is none of them. */
  datatype Event =
    | SetPgidCall(me: int, pid: int, pgid: int, hook: int)
    | SetSidCall(me: int)
    | Fork(me: int, child: int)
    | Exec(me: int)
    | Exit(me: int, heir: int)
    | StartThread(me: int, tid: int)
    | EndThread(tid: int)

  predicate Unused(t: Table, pid: int)
  {
    0 < pid && pid !in t.procs && pid !in t.threads
    && forall q | q in t.procs :: t.procs[q].pgrp != pid && t.procs[q].session != pid
  }

  predicate CanHappen(t: Table, e: Event)
  {
    match e
    case SetPgidCall(me, _, _, _) => me in t.procs
    case SetSidCall(me) => me in t.procs
    case Fork(me, child) => me in t.procs && Unused(t, child)
    case Exec(me) => me in t.procs
    case Exit(me, heir) => me in t.procs && (heir in t.procs ==> t.procs[heir].parent != me)
    case StartThread(me, tid) => me in t.procs && Unused(t, tid)
    case EndThread(tid) => tid in t.threads
  }

  function Orphaned(p: Process, gone: int, heir: int): Process
  {
    if p.parent == gone then p.(parent := heir) else p
  }

  function Happen(t: Table, e: Event): Table
    requires CanHappen(t, e)
  {
    match e
    case SetPgidCall(me, pid, pgid, hook) =>
      var target := Or(pid, me);
      if MaySetPgid(t, me, target, Or(pgid, target)) && hook == 0 then Regrouped(t, target, Or(pgid, target)) else t
    case SetSidCall(me) => if MaySetSid(t, me) then NewSession(t, me) else t
    case Fork(me, child) =>
      t.(procs := t.procs[child := Process(t.procs[me].pgrp, t.procs[me].session, false, me, false)])
    case Exec(me) => t.(procs := t.procs[me := t.procs[me].(didExec := true)])
    case Exit(me, heir) =>
      Table(map p | p in t.procs && p != me :: Orphaned(t.procs[p], me, heir),
            map x | x in t.threads && t.threads[x] != me :: t.threads[x])
    case StartThread(me, tid) => t.(threads := t.threads[tid := me])
    case EndThread(tid) => t.(threads := t.threads - {tid})
  }

  lemma RegroupKeeps(t: Table, me: int, pid: int, pgid: int)
    requires Consistent(t) && me in t.procs && MaySetPgid(t, me, pid, pgid)
    ensures Consistent(Regrouped(t, pid, pgid))
  {
    var t' := Regrouped(t, pid, pgid);
    assert t.procs[pid].session == t.procs[me].session;
    forall p | p in t'.procs && t'.procs[p].pgrp == pgid ensures t'.procs[p].session == t.procs[me].session {
      if p != pid && pgid != pid {
        var q :| q in t.procs && t.procs[q].pgrp == pgid && t.procs[q].session == t.procs[me].session;
      }
    }
    forall p, q | p in t'.procs && q in t'.procs && t'.procs[q].pgrp == p
      ensures t'.procs[q].session == t'.procs[p].session
    {
      if q == pid && pgid != pid {
        var r :| r in t.procs && t.procs[r].pgrp == pgid && t.procs[r].session == t.procs[me].session;
      }
    }
  }

  lemma NewSessionKeeps(t: Table, me: int)
    requires Consistent(t) && me in t.procs && MaySetSid(t, me)
    ensures Consistent(NewSession(t, me))
  {
  }

  lemma ForkKeeps(t: Table, me: int, child: int)
    requires Consistent(t) && me in t.procs && Unused(t, child)
    ensures Consistent(Happen(t, Fork(me, child)))
  {
  }

  lemma ExitKeeps(t: Table, me: int, heir: int)
    requires Consistent(t) && CanHappen(t, Exit(me, heir))
    ensures Consistent(Happen(t, Exit(me, heir)))
  {
    var t' := Happen(t, Exit(me, heir));
    forall p | p in t'.procs
      ensures p in t.procs && t'.procs[p].pgrp == t.procs[p].pgrp
      ensures t'.procs[p].session == t.procs[p].session && t'.procs[p].leader == t.procs[p].leader
    {
      assert t'.procs[p] == Orphaned(t.procs[p], me, heir);
    }
  }

  lemma EventKeeps(t: Table, e: Event)
    requires Consistent(t) && CanHappen(t, e)
    ensures Consistent(Happen(t, e))
  {
    match e
    case SetPgidCall(me, pid, pgid, hook) =>
      var target := Or(pid, me);
      if MaySetPgid(t, me, target, Or(pgid, target)) { RegroupKeeps(t, me, target, Or(pgid, target)); }
    case SetSidCall(me) => if MaySetSid(t, me) { NewSessionKeeps(t, me); }
    case Fork(me, child) => ForkKeeps(t, me, child);
    case Exec(me) =>
    case Exit(me, heir) => ExitKeeps(t, me, heir);
    case StartThread(me, tid) =>
    case EndThread(tid) =>
  }

  function Run(t: Table, events: seq<Event>): Outcome<Table>
    decreases |events|
  {
    if events == [] then Reached(t)
    else if CanHappen(t, events[0]) then Run(Happen(t, events[0]), events[1..]) else Impossible
  }

  /** Over every run no process group comes to span two sessions, every leader
      leads, and so on. */
  lemma {:induction false} RunKeeps(t: Table, events: seq<Event>)
    requires Consistent(t) && Run(t, events).Reached?
    ensures Consistent(Run(t, events).state)
    decreases |events|
  {
    if events != [] {
      EventKeeps(t, events[0]);
      RunKeeps(Happen(t, events[0]), events[1..]);
    }
  }

  /** The table the first process starts with. */
  lemma FirstProcess()
    ensures Consistent(Table(map[1 := Process(0, 0, false, 0, false)], map[]))
  {
  }

  /** A session leader stays one, in its own session and group, for as long as it
      lives. */
  lemma {:induction false} LeaderForLife(t: Table, events: seq<Event>, p: int)
    requires Consistent(t) && Run(t, events).Reached? && p in t.procs && t.procs[p].leader
    requires forall e | e in events :: !(e.Exit? && e.me == p)
    ensures var t' := Run(t, events).state;
            p in t'.procs && t'.procs[p].leader && t'.procs[p].session == t'.procs[p].pgrp == p
    decreases |events|
  {
    if events != [] {
      EventKeeps(t, events[0]);
      assert events[0] in events;
      LeaderForLife(Happen(t, events[0]), events[1..], p);
    }
  }

  /** A successful setsid puts the caller alone into a session and a group that
      nobody else is in. */
  lemma NewSessionIsFresh(t: Table, me: int)
    requires Consistent(t) && me in t.procs && MaySetSid(t, me)
    ensures var t' := NewSession(t, me);
            forall q | q in t'.procs :: (t'.procs[q].session == me <==> q == me) && (t'.procs[q].pgrp == me <==> q == me)
  {
  }

  /** setpgid never moves a process to another session, and setsid never joins
      one that exists: sessions only change hands by a new one being made. */
  lemma SessionsDoNotMix(t: Table, e: Event, p: int)
    requires Consistent(t) && CanHappen(t, e) && p in t.procs && p in Happen(t, e).procs
    ensures Happen(t, e).procs[p].session == t.procs[p].session
            || (e == SetSidCall(p) && Happen(t, e).procs[p].session == p
                && forall q | q in t.procs :: t.procs[q].session != p)
  {
    if e == SetSidCall(p) && MaySetSid(t, p) {
      NewSessionIsFresh(t, p);
    }
  }

  // ----- what the calls achieve

  /** A setpgid that is allowed puts the target into the group and changes
      nothing else about it, nor anybody else; any other changes nothing. */
  lemma SetPgidMoves(t: Table, me: int, pid: int, pgid: int, hook: int)
    requires me in t.procs
    ensures var target := Or(pid, me);
            var group := Or(pgid, target);
            var t' := Happen(t, SetPgidCall(me, pid, pgid, hook));
            if MaySetPgid(t, me, target, group) && hook == 0 then
              var p, p' := t.procs[target], t'.procs[target];
              && p'.pgrp == group && p'.session == p.session && p'.leader == p.leader
              && p'.parent == p.parent && p'.didExec == p.didExec
              && t'.procs.Keys == t.procs.Keys && t'.procs - {target} == t.procs - {target}
              && t'.threads == t.threads
            else t' == t
  {
  }

  /** Exactly a process itself, or its parent in the same session as long as it
      has not executed a new image, moves it to another group: one that is
      named after it or exists in its session. Nobody moves a leader. */
  lemma WhoMayMove(t: Table, me: int, p: int, g: int)
    requires Consistent(t) && me in t.procs && p in t.procs && 0 < g != t.procs[p].pgrp
    ensures Happen(t, SetPgidCall(me, p, g, 0)).procs[p].pgrp == g
            <==> && (p == me || (t.procs[p].parent == me && !t.procs[p].didExec
                                 && t.procs[p].session == t.procs[me].session))
                 && !t.procs[p].leader && Joinable(t, p, g)
  {
  }

  /** And moves nobody else. */
  lemma OthersStay(t: Table, me: int, pid: int, pgid: int, hook: int, q: int)
    requires me in t.procs && q in t.procs && q != Or(pid, me)
    ensures q in Happen(t, SetPgidCall(me, pid, pgid, hook)).procs
    ensures Happen(t, SetPgidCall(me, pid, pgid, hook)).procs[q] == t.procs[q]
  {
  }

  predicate OwnCalls(p: int, events: seq<Event>)
  {
    forall e | e in events :: e.SetPgidCall? && e.me == p && Or(e.pid, p) == p
  }

  ghost predicate CanJoin(t: Table, p: int, g: int)
  {
    exists events :: OwnCalls(p, events) && Run(t, events).Reached?
                     && p in Run(t, events).state.procs && Run(t, events).state.procs[p].pgrp == g
  }

  /** The groups of a process's session. */
  predicate InSession(t: Table, p: int, g: int)
    requires p in t.procs
  {
    exists q | q in t.procs :: t.procs[q].pgrp == g && t.procs[q].session == t.procs[p].session
  }

  /** t' differs from t in the group of p at most, which is one p could join. */
  predicate Joined(t: Table, t': Table, p: int)
    requires p in t.procs
  {
    && t'.procs.Keys == t.procs.Keys && t'.threads == t.threads
    && t'.procs[p] == t.procs[p].(pgrp := t'.procs[p].pgrp)
    && (forall q | q in t.procs && q != p :: t'.procs[q] == t.procs[q])
    && Joinable(t, p, t'.procs[p].pgrp)
  }

  predicate Joinable(t: Table, p: int, g: int)
    requires p in t.procs
  {
    g == t.procs[p].pgrp || g == p || (g > 0 && InSession(t, p, g))
  }

  lemma OwnCallJoins(t: Table, t': Table, p: int, e: Event)
    requires Consistent(t) && p in t.procs && Joined(t, t', p)
    requires e.SetPgidCall? && e.me == p && Or(e.pid, p) == p && CanHappen(t', e)
    ensures Joined(t, Happen(t', e), p)
  {
    var g := Or(e.pgid, p);
    if MaySetPgid(t', p, p, g) && g != p {
      var q :| q in t'.procs && t'.procs[q].pgrp == g && t'.procs[q].session == t'.procs[p].session;
      assert q != p ==> InSession(t, p, g);
    }
  }

  lemma {:induction false} OwnRunJoins(t: Table, t': Table, p: int, events: seq<Event>)
    requires Consistent(t) && p in t.procs && Joined(t, t', p)
    requires OwnCalls(p, events) && Run(t', events).Reached?
    ensures Joined(t, Run(t', events).state, p)
    decreases |events|
  {
    if events != [] {
      assert events[0] in events;
      OwnCallJoins(t, t', p, events[0]);
      OwnRunJoins(t, Happen(t', events[0]), p, events[1..]);
    }
  }

  /** By calls of its own a process that leads no session can come into exactly
      its present group, one named after itself, and those of its session. A
      leader stays where it is. */
  lemma GroupsWithinReach(t: Table, p: int, g: int)
    requires Consistent(t) && p in t.procs
    ensures CanJoin(t, p, g) <==> if t.procs[p].leader then g == t.procs[p].pgrp else Joinable(t, p, g)
  {
    if CanJoin(t, p, g) {
      var events :| OwnCalls(p, events) && Run(t, events).Reached?
        && p in Run(t, events).state.procs && Run(t, events).state.procs[p].pgrp == g;
      OwnRunJoins(t, t, p, events);
      if t.procs[p].leader { LeaderForLife(t, events, p); }
    }
    if g == t.procs[p].pgrp {
      assert OwnCalls(p, []) && Run(t, []) == Reached(t);
    } else if !t.procs[p].leader && Joinable(t, p, g) {
      var e := SetPgidCall(p, 0, g, 0);
      assert MaySetPgid(t, p, p, g);
      assert [e][1..] == [];
      assert Run(t, [e]) == Reached(Happen(t, e));
      assert OwnCalls(p, [e]);
    }
  }

  /** What a shell relies on: parent and child may both put a new child into a
      group of its own, in either order; once the child has executed a new image
      the parent no longer can. */
  lemma JobControl(t: Table, me: int, child: int, g: int)
    requires Consistent(t) && me in t.procs && Unused(t, child)
    ensures var t1 := Happen(t, Fork(me, child));
            var byParent, byChild := SetPgidCall(me, child, child, 0), SetPgidCall(child, 0, 0, 0);
            && Happen(t1, byParent).procs[child].pgrp == child == Happen(t1, byChild).procs[child].pgrp
            && MaySetPgid(Happen(t1, byParent), child, child, child) && MaySetPgid(Happen(t1, byChild), me, child, child)
            && Happen(Happen(t1, byParent), byChild) == Happen(Happen(t1, byChild), byParent)
            && !MaySetPgid(Happen(t1, Exec(child)), me, child, g)
  {
  }

  /** setsid makes a leader of everybody but a process whose pid still names a
      group; and leaders stay so. */
  lemma WhoLeadsAfterSetSid(t: Table, me: int)
    requires Consistent(t) && me in t.procs
    ensures var p := Happen(t, SetSidCall(me)).procs[me];
            p.leader <==> t.procs[me].leader || forall q | q in t.procs :: t.procs[q].pgrp != me
  {
  }

  /** What a daemon relies on: a new child can always make its own session. */
  lemma NewChildMakesSession(t: Table, me: int, child: int)
    requires Consistent(t) && me in t.procs && Unused(t, child)
    ensures var p := Happen(Happen(t, Fork(me, child)), SetSidCall(child)).procs[child];
            p.leader && p.session == p.pgrp == child
  {
  }
}
