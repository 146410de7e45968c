/** Resource limits of a process: do_prlimit, and prlimit64 with its conversions. */
module Limits {
  import Credentials
  import opened Errors

  const NLIMITS := 16
  const CPU := 0
  const NOFILE := 7

  /** A soft and a hard limit. */
  datatype Limit = Limit(cur: nat, max: nat)

  datatype Option<T> = None | Some(value: T)

  // ----- one limit

  /** RLIMIT_CPU keeps 0 for "never set", so a soft limit of 0 becomes one second. */
  function Stored(resource: nat, asked: Limit): Limit
  {
    if resource == CPU && asked.cur == 0 then asked.(cur := 1) else asked
  }

  /** What the call is given besides the limits: whether the task still has its
      signal handlers, whether the caller has the capability, what the security
      module says, and the ceiling for numbers of files. */
  datatype Answers = Answers(alive: bool, capable: bool, hook: int, nrOpen: nat)

  function Verdict(limits: seq<Limit>, resource: nat, asked: Option<Limit>, a: Answers): int
    requires |limits| == NLIMITS
  {
    if resource >= NLIMITS then EINVAL
    else if asked.Some? && asked.value.cur > asked.value.max then EINVAL
    else if asked.Some? && resource == NOFILE && asked.value.max > a.nrOpen then EPERM
    else if !a.alive then ESRCH
    else if asked.None? then 0
    else if asked.value.max > limits[resource].max && !a.capable then EPERM
    else a.hook
  }

  function After(limits: seq<Limit>, resource: nat, asked: Option<Limit>, a: Answers): (after: seq<Limit>)
    requires |limits| == NLIMITS
    ensures |after| == NLIMITS
  {
    if asked.Some? && Verdict(limits, resource, asked, a) == 0
    then limits[resource := Stored(resource, asked.value)] else limits
  }

  // ----- 64-bit limits on machines with long words of 32 or 64 bits

  const ULONG_MAX_32 := 0xFFFF_FFFF
  const RLIM64_INFINITY := 0xFFFF_FFFF_FFFF_FFFF

  /** ULONG_MAX, which is RLIM_INFINITY as well. */
  function LongMax(wide: bool): nat
  {
    if wide then RLIM64_INFINITY else ULONG_MAX_32
  }

  predicate IsInfinity64(wide: bool, x: nat)
  {
    if wide then x == RLIM64_INFINITY else x >= ULONG_MAX_32
  }

  function Widened(wide: bool, x: nat): nat
  {
    if x == LongMax(wide) then RLIM64_INFINITY else x
  }

  /** The cast to unsigned long keeps the low bits. */
  function Narrowed(wide: bool, x: nat): nat
  {
    if IsInfinity64(wide, x) then LongMax(wide) else x % (LongMax(wide) + 1)
  }

  function ToLimit64(wide: bool, l: Limit): Limit
  {
    Limit(Widened(wide, l.cur), Widened(wide, l.max))
  }

  function FromLimit64(wide: bool, l: Limit): Limit
  {
    Limit(Narrowed(wide, l.cur), Narrowed(wide, l.max))
  }

  predicate Fits(max: nat, l: Limit)
  {
    l.cur <= max && l.max <= max
  }

  /** Narrowing only saturates, its cast never drops a bit; hence it keeps order,
      and undoes widening. */
  lemma NarrowingSaturates(wide: bool, x: nat, y: nat)
    requires x <= RLIM64_INFINITY && y <= RLIM64_INFINITY
    ensures Narrowed(wide, x) == if x <= LongMax(wide) then x else LongMax(wide)
    ensures x <= y ==> Narrowed(wide, x) <= Narrowed(wide, y)
    ensures x <= LongMax(wide) ==> Narrowed(wide, Widened(wide, x)) == x
    ensures Widened(wide, Narrowed(wide, x)) == x <==> x < LongMax(wide) || x == RLIM64_INFINITY
  {
    forall z: nat | z < LongMax(wide) ensures Narrowed(wide, z) == z {
      BelowModulus(z, LongMax(wide) + 1);
    }
  }

  lemma BelowModulus(x: nat, m: nat)
    requires x < m
    ensures x % m == x
  {
  }

  /** A limit comes back unchanged from 64 bits, and its order survives both ways. */
  lemma RoundTrip(wide: bool, l: Limit)
    requires Fits(LongMax(wide), l)
    ensures FromLimit64(wide, ToLimit64(wide, l)) == l
    ensures Fits(RLIM64_INFINITY, ToLimit64(wide, l))
    ensures l.cur <= l.max <==> ToLimit64(wide, l).cur <= ToLimit64(wide, l).max
  {
  }

  /** A 64-bit request is refused as disordered exactly when it is disordered and
      its hard limit is below what a long can hold: two limits beyond that
      both become infinity. */
  lemma DisorderedRequest(wide: bool, l: Limit)
    requires Fits(RLIM64_INFINITY, l)
    ensures FromLimit64(wide, l).cur > FromLimit64(wide, l).max <==> l.cur > l.max && l.max < LongMax(wide)
  {
    NarrowingSaturates(wide, l.cur, l.max);
  }

  /** The ids of a task, as the permission check of prlimit64 sees them. */
  datatype Subject = Subject(uids: Credentials.Ids, gids: Credentials.Ids, space: int)

  /** Without the capability the target must be the caller, or run wholly under
      the real ids of the caller. */
  predicate MayLimit(self: bool, me: Subject, target: Subject, capable: bool)
  {
    self || capable
    || (me.space == target.space
        && Credentials.Base(target.uids) == {me.uids.realId}
        && Credentials.Base(target.gids) == {me.gids.realId})
  }

  class Process {
    const rlim: array<Limit>

    ghost predicate Valid()
      reads this
    {
      rlim.Length == NLIMITS
    }

    constructor (limits: seq<Limit>)
      requires |limits| == NLIMITS
      ensures Valid() && fresh(rlim) && rlim[..] == limits
    {
      rlim := new Limit[NLIMITS](i requires 0 <= i < NLIMITS => limits[i]);
    }

    /** The limits in force before come back in former, on success and if wanted;
        timer is what the CPU timer is set to, if it is. */
    method DoPrlimit(resource: nat, asked: Option<Limit>, wantFormer: bool, a: Answers, infinity: nat)
      returns (err: int, former: Option<Limit>, timer: Option<nat>)
      requires Valid()
      modifies rlim
      ensures err == Verdict(old(rlim[..]), resource, asked, a)
      ensures err == if resource >= NLIMITS then EINVAL
                     else if asked.Some? && asked.value.cur > asked.value.max then EINVAL
                     else if asked.Some? && resource == NOFILE && asked.value.max > a.nrOpen then EPERM
                     else if !a.alive then ESRCH
                     else if asked.None? then 0
                     else if asked.value.max > old(rlim[..])[resource].max && !a.capable then EPERM
                     else a.hook
      ensures rlim[..] == After(old(rlim[..]), resource, asked, a)
      ensures former == if err == 0 && wantFormer then Some(old(rlim[..])[resource]) else None
      ensures timer == if err == 0 && asked.Some? && resource == CPU && rlim[CPU].cur != infinity
                       then Some(rlim[CPU].cur) else None
    {
      var request := asked;
      err, former, timer := 0, None, None;
      if resource >= NLIMITS {
        return EINVAL, None, None;
      }
      if request.Some? {
        if request.value.cur > request.value.max {
          return EINVAL, None, None;
        }
        if resource == NOFILE && request.value.max > a.nrOpen {
          return EPERM, None, None;
        }
      }
      if !a.alive {
        return ESRCH, None, None;
      }
      if request.Some? {
        if request.value.max > rlim[resource].max && !a.capable {
          err := EPERM;
        }
        if err == 0 {
          err := a.hook;
        }
        if resource == CPU && request.value.cur == 0 {
          request := Some(request.value.(cur := 1));
        }
      }
      if err == 0 {
        if wantFormer {
          former := Some(rlim[resource]);
        }
        if request.Some? {
          rlim[resource] := request.value;
        }
      }
      if err == 0 && request.Some? && resource == CPU && request.value.cur != infinity {
        timer := Some(request.value.cur);
      }
    }

    method CheckPermission(self: bool, me: Subject, target: Subject, capable: bool) returns (err: int)
      ensures err == if MayLimit(self, me, target, capable) then 0 else EPERM
    {
      if self {
        return 0;
      }
      if me.space == target.space
        && me.uids.realId == target.uids.effective
        && me.uids.realId == target.uids.saved
        && me.uids.realId == target.uids.realId
        && me.gids.realId == target.gids.effective
        && me.gids.realId == target.gids.saved
        && me.gids.realId == target.gids.realId
      {
        return 0;
      }
      assert Credentials.Base(target.uids) == {me.uids.realId} ==>
          target.uids.effective in {me.uids.realId} && target.uids.saved in {me.uids.realId}
          && target.uids.realId in {me.uids.realId};
      assert Credentials.Base(target.gids) == {me.gids.realId} ==>
          target.gids.effective in {me.gids.realId} && target.gids.saved in {me.gids.realId}
          && target.gids.realId in {me.gids.realId};
      if capable {
        return 0;
      }
      err := EPERM;
    }

    /** prlimit64 on this process; found says whether its pid was. */
    method Prlimit64(wide: bool, found: bool, self: bool, me: Subject, target: Subject, capableForTarget: bool,
                     resource: nat, asked: Option<Limit>, wantFormer: bool, a: Answers)
      returns (err: int, former: Option<Limit>)
      requires Valid()
      modifies rlim
      ensures var may := found && MayLimit(self, me, target, capableForTarget);
              var request := if asked.Some? then Some(FromLimit64(wide, asked.value)) else None;
              && err == (if !found then ESRCH else if !may then EPERM
                         else Verdict(old(rlim[..]), resource, request, a))
              && rlim[..] == (if may then After(old(rlim[..]), resource, request, a) else old(rlim[..]))
      ensures former == if err == 0 && wantFormer then Some(ToLimit64(wide, old(rlim[..])[resource])) else None
    {
      former := None;
      var request: Option<Limit> := None;
      if asked.Some? {
        request := Some(FromLimit64(wide, asked.value));
      }
      if !found {
        return ESRCH, None;
      }
      err := CheckPermission(self, me, target, capableForTarget);
      if err != 0 {
        return err, None;
      }
      var narrow, timer;
      err, narrow, timer := DoPrlimit(resource, request, wantFormer, a, LongMax(wide));
      if err == 0 && wantFormer {
        former := Some(ToLimit64(wide, narrow.value));
      }
    }
  }

  // ----- runs

  datatype Call = Call(resource: nat, asked: Option<Limit>, a: Answers)

  function Run(limits: seq<Limit>, calls: seq<Call>): (after: seq<Limit>)
    requires |limits| == NLIMITS
    ensures |after| == NLIMITS
    decreases |calls|
  {
    if calls == [] then limits
    else Run(After(limits, calls[0].resource, calls[0].asked, calls[0].a), calls[1..])
  }

  /** The soft limit is at most the hard one, or it is the one second that a
      request for no CPU time at all turns into. */
  predicate Ordered(resource: nat, l: Limit)
  {
    l.cur <= l.max || (resource == CPU && l == Limit(1, 0))
  }

  predicate AllOrdered(limits: seq<Limit>)
    requires |limits| == NLIMITS
  {
    forall i | 0 <= i < NLIMITS :: Ordered(i, limits[i])
  }

  predicate Unprivileged(calls: seq<Call>, nrOpen: nat)
  {
    forall c | c in calls :: !c.a.capable && c.a.nrOpen == nrOpen
  }

  lemma {:induction false} RunKeepsOrder(limits: seq<Limit>, calls: seq<Call>)
    requires |limits| == NLIMITS && AllOrdered(limits)
    ensures AllOrdered(Run(limits, calls))
    decreases |calls|
  {
    if calls != [] {
      RunKeepsOrder(After(limits, calls[0].resource, calls[0].asked, calls[0].a), calls[1..]);
    }
  }

  /** A request that is granted leaves the soft limit above the hard one exactly
      when it asks for no CPU time at all. */
  lemma Disorder(limits: seq<Limit>, resource: nat, asked: Limit, a: Answers)
    requires |limits| == NLIMITS && Verdict(limits, resource, Some(asked), a) == 0
    ensures var l := After(limits, resource, Some(asked), a)[resource];
            l.cur > l.max <==> resource == CPU && asked == Limit(0, 0)
  {
  }

  /** What an unprivileged run can make of one limit. */
  predicate Grantable(present: Limit, resource: nat, l: Limit, nrOpen: nat)
  {
    && l.max <= present.max
    && (resource == NOFILE ==> l.max <= nrOpen)
    && (resource == CPU ==> l.cur > 0)
    && Ordered(resource, l)
  }

  lemma {:induction false} RunGrants(limits: seq<Limit>, calls: seq<Call>, resource: nat, nrOpen: nat)
    requires |limits| == NLIMITS && resource < NLIMITS && Unprivileged(calls, nrOpen)
    ensures var l := Run(limits, calls)[resource];
            l == limits[resource] || Grantable(limits[resource], resource, l, nrOpen)
    decreases |calls|
  {
    if calls != [] {
      assert calls[0] in calls;
      RunGrants(After(limits, calls[0].resource, calls[0].asked, calls[0].a), calls[1..], resource, nrOpen);
    }
  }

  /** Hard limits never rise without the capability. */
  lemma HardLimitsFall(limits: seq<Limit>, calls: seq<Call>, resource: nat, nrOpen: nat)
    requires |limits| == NLIMITS && resource < NLIMITS && Unprivileged(calls, nrOpen)
    ensures Run(limits, calls)[resource].max <= limits[resource].max
  {
    RunGrants(limits, calls, resource, nrOpen);
  }

  ghost predicate CanReach(limits: seq<Limit>, resource: nat, l: Limit, nrOpen: nat)
    requires |limits| == NLIMITS && resource < NLIMITS
  {
    exists calls :: Unprivileged(calls, nrOpen) && Run(limits, calls)[resource] == l
  }

  /** Without the capability a limit can be left alone or lowered, and nothing
      else: every pair within the present hard limit can be reached. */
  lemma ReachableLimits(limits: seq<Limit>, resource: nat, l: Limit, nrOpen: nat)
    requires |limits| == NLIMITS && resource < NLIMITS
    ensures CanReach(limits, resource, l, nrOpen)
            <==> l == limits[resource] || Grantable(limits[resource], resource, l, nrOpen)
  {
    if CanReach(limits, resource, l, nrOpen) {
      var calls :| Unprivileged(calls, nrOpen) && Run(limits, calls)[resource] == l;
      RunGrants(limits, calls, resource, nrOpen);
    }
    if l == limits[resource] {
      assert Unprivileged([], nrOpen) && Run(limits, [])[resource] == l;
    } else if Grantable(limits[resource], resource, l, nrOpen) {
      var asked := if l.cur > l.max then Limit(0, 0) else l;
      var call := Call(resource, Some(asked), Answers(true, false, 0, nrOpen));
      assert Unprivileged([call], nrOpen);
      assert [call][1..] == [];
      assert Run(limits, [call]) == After(limits, resource, Some(asked), call.a);
    }
  }

  /** Whatever the answers, a call changes no other limit, and none at all for a
      dead task or against the security module. */
  lemma AnswersRespected(limits: seq<Limit>, resource: nat, asked: Option<Limit>, a: Answers, i: nat)
    requires |limits| == NLIMITS && i < NLIMITS
    ensures i != resource || asked.None? || !a.alive || a.hook != 0 ==>
              After(limits, resource, asked, a)[i] == limits[i]
  {
  }

  predicate Privileged(calls: seq<Call>, nrOpen: nat)
  {
    forall c | c in calls :: c.a.capable && c.a.nrOpen == nrOpen
  }

  /** What any run can make of a limit. */
  predicate Sound(resource: nat, l: Limit, nrOpen: nat)
  {
    && (resource == NOFILE ==> l.max <= nrOpen)
    && (resource == CPU ==> l.cur > 0)
    && Ordered(resource, l)
  }

  lemma {:induction false} RunIsSound(limits: seq<Limit>, calls: seq<Call>, resource: nat, nrOpen: nat)
    requires |limits| == NLIMITS && resource < NLIMITS && Privileged(calls, nrOpen)
    ensures var l := Run(limits, calls)[resource];
            l == limits[resource] || Sound(resource, l, nrOpen)
    decreases |calls|
  {
    if calls != [] {
      assert calls[0] in calls;
      RunIsSound(After(limits, calls[0].resource, calls[0].asked, calls[0].a), calls[1..], resource, nrOpen);
    }
  }

  ghost predicate CanRaise(limits: seq<Limit>, resource: nat, l: Limit, nrOpen: nat)
    requires |limits| == NLIMITS && resource < NLIMITS
  {
    exists calls :: Privileged(calls, nrOpen) && Run(limits, calls)[resource] == l
  }

  /** With the capability a limit can become any ordered pair, below or above the
      present one, within the ceiling for numbers of files. */
  lemma RaisableLimits(limits: seq<Limit>, resource: nat, l: Limit, nrOpen: nat)
    requires |limits| == NLIMITS && resource < NLIMITS
    ensures CanRaise(limits, resource, l, nrOpen) <==> l == limits[resource] || Sound(resource, l, nrOpen)
  {
    if CanRaise(limits, resource, l, nrOpen) {
      var calls :| Privileged(calls, nrOpen) && Run(limits, calls)[resource] == l;
      RunIsSound(limits, calls, resource, nrOpen);
    }
    if l == limits[resource] {
      assert Privileged([], nrOpen) && Run(limits, [])[resource] == l;
    } else if Sound(resource, l, nrOpen) {
      var asked := if l.cur > l.max then Limit(0, 0) else l;
      var call := Call(resource, Some(asked), Answers(true, true, 0, nrOpen));
      assert Privileged([call], nrOpen);
      assert [call][1..] == [];
      assert Run(limits, [call]) == After(limits, resource, Some(asked), call.a);
    }
  }

  /** So a hard limit can be raised by a call if and only if that has the
      capability. */
  lemma RaisingNeedsCapability(limits: seq<Limit>, resource: nat, asked: Limit, a: Answers)
    requires |limits| == NLIMITS && resource < NLIMITS && asked.cur <= asked.max
    requires asked.max > limits[resource].max && a.alive && a.hook == 0 && (resource == NOFILE ==> asked.max <= a.nrOpen)
    ensures After(limits, resource, Some(asked), a)[resource].max == asked.max <==> a.capable
  {
  }

  /** Without the capability the limits of another task are open to exactly those
      who are, by their real ids, all it could ever act as. */
  lemma WhoMayLimit(me: Subject, target: Subject)
    ensures MayLimit(false, me, target, false) <==>
              && me.space == target.space
              && (forall u :: Credentials.CanAct(target.uids, u) <==> u == me.uids.realId)
              && (forall g :: Credentials.CanAct(target.gids, g) <==> g == me.gids.realId)
    ensures MayLimit(true, me, target, false) && MayLimit(false, me, target, true)
  {
    SoleIdentity(target.uids, me.uids.realId);
    SoleIdentity(target.gids, me.gids.realId);
  }

  lemma SoleIdentity(o: Credentials.Ids, v: Credentials.Id)
    ensures Credentials.Base(o) == {v} <==> forall u :: Credentials.CanAct(o, u) <==> u == v
  {
    hide Credentials.CanAct;
    forall u ensures Credentials.CanAct(o, u) <==> u in Credentials.Base(o) {
      Credentials.ReachableIds(o, u);
    }
    if forall u :: Credentials.CanAct(o, u) <==> u == v {
      forall u ensures u in Credentials.Base(o) <==> u in {v} {
        assert Credentials.CanAct(o, u) <==> u == v;
      }
    }
  }

  /** Writing back what prlimit64 has read is granted without the capability and
      changes nothing, unless the limit is disordered or asks for no CPU time. */
  lemma RestoreIsNeutral(wide: bool, limits: seq<Limit>, resource: nat, a: Answers)
    requires |limits| == NLIMITS && resource < NLIMITS && Fits(LongMax(wide), limits[resource])
    requires a.alive && a.hook == 0 && (resource == NOFILE ==> limits[resource].max <= a.nrOpen)
    ensures var l := limits[resource];
            var again := Some(FromLimit64(wide, ToLimit64(wide, l)));
            Verdict(limits, resource, again, a) == 0 && After(limits, resource, again, a) == limits
            <==> l.cur <= l.max && (resource == CPU ==> l.cur > 0)
  {
    RoundTrip(wide, limits[resource]);
    var l := limits[resource];
    if l.cur <= l.max {
      assert After(limits, resource, Some(l), a)[resource] == Stored(resource, l);
    }
  }
}
