/** User and group ids of a task: the set*uid and set*gid calls. */
module Credentials {
  import opened Errors

  const ID_MAX := 0xFFFF_FFFF

  /** uid_t and gid_t are unsigned 32-bit numbers. */
  type Id = x: int | 0 <= x <= ID_MAX

  /** The argument (uid_t) -1, which asks some of the calls to leave an id alone. */
  const KEEP: Id := ID_MAX

  datatype Ids = Ids(realId: Id, effective: Id, saved: Id, fs: Id)

  /** The ids a task can get back to without a capability. */
  function Base(o: Ids): set<Id>
  {
    {o.realId, o.effective, o.saved}
  }

  /** Those, and the one file accesses are checked with. */
  function All(o: Ids): set<Id>
  {
    Base(o) + {o.fs}
  }

  /** What the rest of the kernel answers during a call: whether there is memory
      for new credentials, whether the task has the capability, whether there is
      memory for a user record, and what the security module says. */
  datatype Answers = Answers(memory: bool, capable: bool, user: bool, hook: int)

  /** The gid calls ask for neither a user record nor the security module. */
  function ForGroups(memory: bool, capable: bool): Answers
  {
    Answers(memory, capable, true, 0)
  }

  datatype Op =
    | SetRe(realId: Id, effective: Id)
    | Set(id: Id)
    | SetRes(realId: Id, effective: Id, saved: Id)
    | SetFs(id: Id)

  function Kept(x: Id, present: Id): Id
  {
    if x == KEEP then present else x
  }

  /** Whether a task without the capability may make the call. */
  predicate May(o: Ids, op: Op)
  {
    match op
    case SetRe(r, e) => r in {KEEP, o.realId, o.effective} && e in Base(o) + {KEEP}
    case Set(u) => u in {o.realId, o.saved}
    case SetRes(r, e, s) => {r, e, s} <= Base(o) + {KEEP}
    case SetFs(u) => u in All(o)
  }

  /** The ids a call asks for. */
  function Target(o: Ids, op: Op, capable: bool): Ids
  {
    match op
    case SetRe(r, e) =>
      var e' := Kept(e, o.effective);
      Ids(Kept(r, o.realId), e', if r != KEEP || e !in {KEEP, o.realId} then e' else o.saved, e')
    case Set(u) => if capable then Ids(u, u, u, u) else Ids(o.realId, u, o.saved, u)
    case SetRes(r, e, s) =>
      Ids(Kept(r, o.realId), Kept(e, o.effective), Kept(s, o.saved), Kept(e, o.effective))
    case SetFs(u) => o.(fs := u)
  }

  /** The error code. A user record is wanted when the real id changes. The two
      fs calls have no error code: they do nothing where others would fail, and
      take any answer but 0 for a refusal. */
  function Verdict(o: Ids, op: Op, a: Answers): int
  {
    if !a.memory then ENOMEM
    else if !a.capable && !May(o, op) then EPERM
    else if Target(o, op, a.capable).realId != o.realId && !a.user then EAGAIN
    else if a.hook < 0 || (op.SetFs? && a.hook > 0) then a.hook
    else 0
  }

  function After(o: Ids, op: Op, a: Answers): Ids
  {
    if Verdict(o, op, a) == 0 then Target(o, op, a.capable) else o
  }

  class Task {
    var uids: Ids
    var gids: Ids

    constructor (uids: Ids, gids: Ids)
      ensures this.uids == uids && this.gids == gids
    {
      this.uids, this.gids := uids, gids;
    }

    method SetRegid(rgid: Id, egid: Id, memory: bool, capable: bool) returns (err: int)
      modifies this`gids
      ensures err == Verdict(old(gids), SetRe(rgid, egid), ForGroups(memory, capable))
      ensures gids == After(old(gids), SetRe(rgid, egid), ForGroups(memory, capable))
    {
      if !memory {
        return ENOMEM;
      }
      var next := gids;
      if rgid != KEEP {
        if gids.realId == rgid || gids.effective == rgid || capable {
          next := next.(realId := rgid);
        } else {
          return EPERM;
        }
      }
      if egid != KEEP {
        if gids.realId == egid || gids.effective == egid || gids.saved == egid || capable {
          next := next.(effective := egid);
        } else {
          return EPERM;
        }
      }
      if rgid != KEEP || (egid != KEEP && egid != gids.realId) {
        next := next.(saved := next.effective);
      }
      next := next.(fs := next.effective);
      gids := next;
      err := 0;
    }

    method SetGid(gid: Id, memory: bool, capable: bool) returns (err: int)
      modifies this`gids
      ensures err == Verdict(old(gids), Set(gid), ForGroups(memory, capable))
      ensures gids == After(old(gids), Set(gid), ForGroups(memory, capable))
    {
      if !memory {
        return ENOMEM;
      }
      var next := gids;
      if capable {
        next := next.(realId := gid, effective := gid, saved := gid, fs := gid);
      } else if gid == gids.realId || gid == gids.saved {
        next := next.(effective := gid, fs := gid);
      } else {
        return EPERM;
      }
      gids := next;
      err := 0;
    }

    method SetReuid(ruid: Id, euid: Id, a: Answers) returns (err: int)
      modifies this`uids
      ensures err == Verdict(old(uids), SetRe(ruid, euid), a)
      ensures uids == After(old(uids), SetRe(ruid, euid), a)
    {
      if !a.memory {
        return ENOMEM;
      }
      var next := uids;
      if ruid != KEEP {
        next := next.(realId := ruid);
        if uids.realId != ruid && uids.effective != ruid && !a.capable {
          return EPERM;
        }
      }
      if euid != KEEP {
        next := next.(effective := euid);
        if uids.realId != euid && uids.effective != euid && uids.saved != euid && !a.capable {
          return EPERM;
        }
      }
      if next.realId != uids.realId && !a.user {
        return EAGAIN;
      }
      if ruid != KEEP || (euid != KEEP && euid != uids.realId) {
        next := next.(saved := next.effective);
      }
      next := next.(fs := next.effective);
      if a.hook < 0 {
        return a.hook;
      }
      uids := next;
      err := 0;
    }

    method SetUid(uid: Id, a: Answers) returns (err: int)
      modifies this`uids
      ensures err == Verdict(old(uids), Set(uid), a)
      ensures uids == After(old(uids), Set(uid), a)
    {
      if !a.memory {
        return ENOMEM;
      }
      var next := uids;
      if a.capable {
        next := next.(saved := uid, realId := uid);
        if uid != uids.realId && !a.user {
          return EAGAIN;
        }
      } else if uid != uids.realId && uid != next.saved {
        return EPERM;
      }
      next := next.(fs := uid, effective := uid);
      if a.hook < 0 {
        return a.hook;
      }
      uids := next;
      err := 0;
    }

    method SetResuid(ruid: Id, euid: Id, suid: Id, a: Answers) returns (err: int)
      modifies this`uids
      ensures err == Verdict(old(uids), SetRes(ruid, euid, suid), a)
      ensures uids == After(old(uids), SetRes(ruid, euid, suid), a)
    {
      if !a.memory {
        return ENOMEM;
      }
      var next := uids;
      if !a.capable {
        if ruid != KEEP && ruid != uids.realId && ruid != uids.effective && ruid != uids.saved {
          return EPERM;
        }
        if euid != KEEP && euid != uids.realId && euid != uids.effective && euid != uids.saved {
          return EPERM;
        }
        if suid != KEEP && suid != uids.realId && suid != uids.effective && suid != uids.saved {
          return EPERM;
        }
      }
      if ruid != KEEP {
        next := next.(realId := ruid);
        if ruid != uids.realId && !a.user {
          return EAGAIN;
        }
      }
      if euid != KEEP {
        next := next.(effective := euid);
      }
      if suid != KEEP {
        next := next.(saved := suid);
      }
      next := next.(fs := next.effective);
      if a.hook < 0 {
        return a.hook;
      }
      uids := next;
      err := 0;
    }

    method SetResgid(rgid: Id, egid: Id, sgid: Id, memory: bool, capable: bool) returns (err: int)
      modifies this`gids
      ensures err == Verdict(old(gids), SetRes(rgid, egid, sgid), ForGroups(memory, capable))
      ensures gids == After(old(gids), SetRes(rgid, egid, sgid), ForGroups(memory, capable))
    {
      if !memory {
        return ENOMEM;
      }
      var next := gids;
      if !capable {
        if rgid != KEEP && rgid != gids.realId && rgid != gids.effective && rgid != gids.saved {
          return EPERM;
        }
        if egid != KEEP && egid != gids.realId && egid != gids.effective && egid != gids.saved {
          return EPERM;
        }
        if sgid != KEEP && sgid != gids.realId && sgid != gids.effective && sgid != gids.saved {
          return EPERM;
        }
      }
      if rgid != KEEP {
        next := next.(realId := rgid);
      }
      if egid != KEEP {
        next := next.(effective := egid);
      }
      if sgid != KEEP {
        next := next.(saved := sgid);
      }
      next := next.(fs := next.effective);
      gids := next;
      err := 0;
    }

    /** Answers with the id that was in force before, whatever happens. */
    method SetFsuid(uid: Id, a: Answers) returns (previous: Id)
      modifies this`uids
      ensures previous == old(uids).fs
      ensures uids == After(old(uids), SetFs(uid), a)
    {
      previous := uids.fs;
      if !a.memory {
        return;
      }
      if uid == uids.realId || uid == uids.effective || uid == uids.saved || uid == uids.fs || a.capable {
        if uid != previous {
          var next := uids.(fs := uid);
          if a.hook == 0 {
            uids := next;
          }
        }
      }
    }

    method SetFsgid(gid: Id, memory: bool, capable: bool) returns (previous: Id)
      modifies this`gids
      ensures previous == old(gids).fs
      ensures gids == After(old(gids), SetFs(gid), ForGroups(memory, capable))
    {
      previous := gids.fs;
      if !memory {
        return;
      }
      if gid == gids.realId || gid == gids.effective || gid == gids.saved || gid == gids.fs || capable {
        if gid != previous {
          gids := gids.(fs := gid);
        }
      }
    }
  }

  // ----- runs of calls, mixed in any way, with any answers

  datatype Call = Call(op: Op, a: Answers)

  function Run(o: Ids, calls: seq<Call>): Ids
    decreases |calls|
  {
    if calls == [] then o else Run(After(o, calls[0].op, calls[0].a), calls[1..])
  }

  predicate Unprivileged(calls: seq<Call>)
  {
    forall c | c in calls :: !c.a.capable
  }

  lemma CallGainsNothing(o: Ids, op: Op, a: Answers)
    requires !a.capable
    ensures Base(After(o, op, a)) <= Base(o)
    ensures All(After(o, op, a)) <= All(o)
  {
    match op
    case SetRe(_, _) =>
    case Set(_) =>
    case SetRes(r, e, s) =>
      assert r in {r, e, s} && e in {r, e, s} && s in {r, e, s};
    case SetFs(_) =>
  }

  /** Without the capability no run of calls gives a task an id it did not have. */
  lemma {:induction false} NothingGained(o: Ids, calls: seq<Call>)
    requires Unprivileged(calls)
    ensures Base(Run(o, calls)) <= Base(o)
    ensures All(Run(o, calls)) <= All(o)
    decreases |calls|
  {
    if calls != [] {
      assert calls[0] in calls;
      CallGainsNothing(o, calls[0].op, calls[0].a);
      NothingGained(After(o, calls[0].op, calls[0].a), calls[1..]);
    }
  }

  ghost predicate CanAct(o: Ids, u: Id)
  {
    exists calls :: Unprivileged(calls) && Run(o, calls).effective == u
  }

  ghost predicate CanAccess(o: Ids, u: Id)
  {
    exists calls :: Unprivileged(calls) && Run(o, calls).fs == u
  }

  /** Without the capability a task can come to act under exactly its real,
      effective and saved ids, and to access files under those and its fs id. */
  lemma ReachableIds(o: Ids, u: Id)
    ensures CanAct(o, u) <==> u in Base(o)
    ensures CanAccess(o, u) <==> u in All(o)
  {
    if CanAct(o, u) {
      var calls :| Unprivileged(calls) && Run(o, calls).effective == u;
      NothingGained(o, calls);
    }
    if CanAccess(o, u) {
      var calls :| Unprivileged(calls) && Run(o, calls).fs == u;
      NothingGained(o, calls);
    }
    var granted := Answers(true, false, true, 0);
    if u == o.effective {
      assert Unprivileged([]) && Run(o, []).effective == u;
    } else if u in Base(o) {
      OneCall(o, Set(u), granted);
    }
    if u in All(o) {
      OneCall(o, SetFs(u), granted);
    }
  }

  lemma OneCall(o: Ids, op: Op, a: Answers)
    ensures Run(o, [Call(op, a)]) == After(o, op, a)
    ensures !a.capable ==> Unprivileged([Call(op, a)])
  {
    assert [Call(op, a)][1..] == [];
  }

  ghost predicate CanBecome(o: Ids, t: Ids)
  {
    exists calls :: Unprivileged(calls) && Run(o, calls) == t
  }

  /** t has no real, effective or saved id that o lacks, and its fs id is one of
      them, unless t is o itself. */
  predicate Kin(o: Ids, t: Ids)
  {
    Base(t) <= Base(o) && (t.fs in Base(t) || t == o)
  }

  lemma CallKeepsKin(o: Ids, t: Ids, op: Op, a: Answers)
    requires !a.capable && Kin(o, t)
    ensures Kin(o, After(t, op, a))
  {
    CallGainsNothing(t, op, a);
  }

  lemma {:induction false} RunKeepsKin(o: Ids, t: Ids, calls: seq<Call>)
    requires Unprivileged(calls) && Kin(o, t)
    ensures Kin(o, Run(t, calls))
    decreases |calls|
  {
    if calls != [] {
      assert calls[0] in calls;
      CallKeepsKin(o, t, calls[0].op, calls[0].a);
      RunKeepsKin(o, After(t, calls[0].op, calls[0].a), calls[1..]);
    }
  }

  /** The credentials a task can come to without the capability, as long as no
      id of its own is the one that asks to be left alone. */
  lemma {:induction false} ReachableCredentials(o: Ids, t: Ids)
    ensures CanBecome(o, t) ==> Kin(o, t)
    ensures KEEP !in Base(o) ==> (CanBecome(o, t) <==> Kin(o, t))
  {
    if CanBecome(o, t) {
      var calls :| Unprivileged(calls) && Run(o, calls) == t;
      RunKeepsKin(o, o, calls);
    }
    if t == o {
      assert Unprivileged([]) && Run(o, []) == t;
    } else if KEEP !in Base(o) && Kin(o, t) {
      TwoCalls(o, t);
    }
  }

  lemma TwoCalls(o: Ids, t: Ids)
    requires KEEP !in Base(o) && Base(t) <= Base(o) && t.fs in Base(t)
    ensures CanBecome(o, t)
  {
    var granted := Answers(true, false, true, 0);
    var three, last := SetRes(t.realId, t.effective, t.saved), SetFs(t.fs);
    assert t.realId in Base(t) && t.effective in Base(t) && t.saved in Base(t);
    var o' := After(o, three, granted);
    assert o' == Ids(t.realId, t.effective, t.saved, t.effective);
    OneCall(o', last, granted);
    var calls := [Call(three, granted), Call(last, granted)];
    assert calls[1..] == [Call(last, granted)];
    assert Unprivileged(calls) && Run(o, calls) == t;
  }

  /** After a capable setuid(u), or any setreuid(u, u) that succeeds, all four ids
      are u and stay u through every run without the capability. */
  lemma {:induction false} SettledForGood(o: Ids, u: Id, first: Call, calls: seq<Call>)
    requires (first.op == Set(u) && first.a.capable) || (first.op == SetRe(u, u) && u != KEEP)
    requires Verdict(o, first.op, first.a) == 0 && Unprivileged(calls)
    ensures Run(After(o, first.op, first.a), calls) == Ids(u, u, u, u)
  {
    var settled := After(o, first.op, first.a);
    NothingGained(settled, calls);
    var end := Run(settled, calls);
    assert All(end) <= {u};
    assert end.realId in All(end) && end.effective in All(end) && end.saved in All(end) && end.fs in All(end);
  }

  /** Swapping the real and the effective id with setreuid can be undone by
      swapping again, with no capability in between: the real and effective ids
      return, and the effective id is saved. */
  lemma SwapAndBack(o: Ids, a: Answers)
    requires !a.capable && a.memory && a.user && a.hook == 0
    requires o.realId != KEEP && o.effective != KEEP
    ensures var there := After(o, SetRe(o.effective, o.realId), a);
            there.realId == o.effective && there.effective == o.realId && o.effective in Base(there)
            && After(there, SetRe(o.realId, o.effective), a)
               == Ids(o.realId, o.effective, o.effective, o.effective)
  {
  }

  // ----- what each call is for

  /** What an answer stands in the way of: without memory or against the security
      module nothing changes, without a user record the real id does not; with
      everything granted every call succeeds. */
  lemma AnswersRespected(o: Ids, op: Op, a: Answers)
    ensures !a.memory || a.hook < 0 || (op.SetFs? && a.hook != 0) ==> After(o, op, a) == o && Verdict(o, op, a) != 0
    ensures !a.user ==> After(o, op, a).realId == o.realId
    ensures a.memory && a.capable && a.user && a.hook == 0 ==> Verdict(o, op, a) == 0
  {
  }

  /** Memory is missed before the permission, the permission before the user
      record, and that before the security module is asked. */
  lemma ErrorOrder(o: Ids, op: Op, a: Answers)
    ensures var granted := a.(memory := true, user := true, hook := 0);
            && Verdict(o, op, granted) in {0, EPERM}
            && (!a.memory ==> Verdict(o, op, a) == ENOMEM)
            && (a.memory && Verdict(o, op, granted) == EPERM ==> Verdict(o, op, a) == EPERM)
            && (a.memory && Verdict(o, op, granted) == 0 && !a.user ==>
                  Verdict(o, op, a) == EAGAIN || After(o, op, granted).realId == o.realId)
  {
  }

  /** After a setreuid or setresuid that succeeds an id is the one asked for, or
      the one it was if none was; files are accessed under the effective one. */
  lemma AsksAndGets(o: Ids, r: Id, e: Id, s: Id, a: Answers)
    ensures Verdict(o, SetRe(r, e), a) == 0 ==>
              var t := After(o, SetRe(r, e), a);
              && t.realId == (if r == KEEP then o.realId else r)
              && t.effective == t.fs == (if e == KEEP then o.effective else e)
    ensures Verdict(o, SetRes(r, e, s), a) == 0 ==>
              var t := After(o, SetRes(r, e, s), a);
              && t.realId == (if r == KEEP then o.realId else r)
              && t.effective == t.fs == (if e == KEEP then o.effective else e)
              && t.saved == (if s == KEEP then o.saved else s)
  {
  }

  /** A setreuid that sets the real id, or the effective id to anything but the
      real id, drops privileges: without the capability the task can act under
      its new real and effective ids and no other. Otherwise the saved id stays,
      and with it the way back. */
  lemma SetReDrops(o: Ids, r: Id, e: Id, a: Answers, u: Id)
    requires Verdict(o, SetRe(r, e), a) == 0
    ensures var t := After(o, SetRe(r, e), a);
            if r != KEEP || e !in {KEEP, o.realId}
            then CanAct(t, u) <==> u in {t.realId, t.effective}
            else t.saved == o.saved && CanAct(t, o.saved)
  {
    ReachableIds(After(o, SetRe(r, e), a), u);
    ReachableIds(After(o, SetRe(r, e), a), o.saved);
  }

  /** t is one call away from o, without the capability. */
  ghost predicate OneSetRe(o: Ids, t: Ids)
  {
    exists r, e, a: Answers :: !a.capable && After(o, SetRe(r, e), a) == t
  }

  ghost predicate OneSet(o: Ids, t: Ids)
  {
    exists u, a: Answers :: !a.capable && After(o, Set(u), a) == t
  }

  ghost predicate OneSetRes(o: Ids, t: Ids)
  {
    exists r, e, s, a: Answers :: !a.capable && After(o, SetRes(r, e, s), a) == t
  }

  ghost predicate OneSetFs(o: Ids, t: Ids)
  {
    exists u, a: Answers :: !a.capable && After(o, SetFs(u), a) == t
  }

  /** setreuid takes the real id from the real and effective ones only, and the
      effective id from all three; it saves the new effective id, unless the
      real id stays and the effective id stays or becomes the real one. */
  lemma OneCallOfSetRe(o: Ids, t: Ids)
    requires KEEP !in Base(o)
    ensures OneSetRe(o, t) <==>
              t == o
              || (t.realId in {o.realId, o.effective} && t.effective in Base(o) && t.fs == t.effective
                  && (t.saved == t.effective
                      || (t.saved == o.saved && t.realId == o.realId && t.effective in {o.realId, o.effective})))
  {
    var granted := Answers(true, false, true, 0);
    if t == o {
      assert After(o, SetRe(KEEP, KEEP), Answers(false, false, true, 0)) == t;
    } else if t.realId in {o.realId, o.effective} && t.effective in Base(o) && t.fs == t.effective {
      if t.saved == t.effective {
        assert After(o, SetRe(t.realId, t.effective), granted) == t;
      } else if t.saved == o.saved && t.realId == o.realId && t.effective in {o.realId, o.effective} {
        var e := if t.effective == o.effective then KEEP else t.effective;
        assert After(o, SetRe(KEEP, e), granted) == t;
      }
    }
  }

  /** setuid switches the effective id between the real and the saved one. */
  lemma OneCallOfSet(o: Ids, t: Ids)
    ensures OneSet(o, t) <==>
              t == o || (t.realId == o.realId && t.saved == o.saved
                         && t.effective == t.fs && t.effective in {o.realId, o.saved})
  {
    if t == o {
      assert After(o, Set(o.realId), Answers(false, false, true, 0)) == t;
    } else if t.realId == o.realId && t.saved == o.saved && t.effective == t.fs && t.effective in {o.realId, o.saved} {
      assert After(o, Set(t.effective), Answers(true, false, true, 0)) == t;
    }
  }

  /** setresuid permutes the three ids as it likes. */
  lemma OneCallOfSetRes(o: Ids, t: Ids)
    requires KEEP !in Base(o)
    ensures OneSetRes(o, t) <==> t == o || (Base(t) <= Base(o) && t.fs == t.effective)
  {
    if t == o {
      assert After(o, SetRes(KEEP, KEEP, KEEP), Answers(false, false, true, 0)) == t;
    } else if Base(t) <= Base(o) && t.fs == t.effective {
      assert t.realId in Base(t) && t.effective in Base(t) && t.saved in Base(t);
      assert After(o, SetRes(t.realId, t.effective, t.saved), Answers(true, false, true, 0)) == t;
    }
    if OneSetRes(o, t) {
      var r, e, s, a: Answers :| !a.capable && After(o, SetRes(r, e, s), a) == t;
      CallGainsNothing(o, SetRes(r, e, s), a);
    }
  }

  /** setfsuid makes the fs id any of the four. */
  lemma OneCallOfSetFs(o: Ids, t: Ids)
    ensures OneSetFs(o, t) <==> t == o.(fs := t.fs) && t.fs in All(o)
  {
    if t == o.(fs := t.fs) && t.fs in All(o) {
      assert After(o, SetFs(t.fs), Answers(true, false, true, 0)) == t;
    }
  }

  // ----- with the capability

  predicate Privileged(calls: seq<Call>)
  {
    forall c | c in calls :: c.a.capable
  }

  /** With the capability a task can come to any credentials at all. */
  lemma PrivilegedReachesAll(o: Ids, t: Ids)
    ensures exists calls :: Privileged(calls) && Run(o, calls) == t
  {
    var granted := Answers(true, true, true, 0);
    var first, second, third := Set(KEEP), SetRes(t.realId, t.effective, t.saved), SetFs(t.fs);
    var calls := [Call(first, granted), Call(second, granted), Call(third, granted)];
    var o1 := After(o, first, granted);
    assert o1 == Ids(KEEP, KEEP, KEEP, KEEP);
    var o2 := After(o1, second, granted);
    assert o2 == Ids(t.realId, t.effective, t.saved, t.effective);
    assert calls[1..] == [Call(second, granted), Call(third, granted)];
    assert calls[1..][1..] == [Call(third, granted)];
    OneCall(o2, third, granted);
    assert Run(o1, calls[1..]) == t;
    assert Privileged(calls) && Run(o, calls) == t;
  }
}
