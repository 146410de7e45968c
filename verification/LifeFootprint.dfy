/** The steps of the parallel Game of Life read and write no more shared memory
    than the theorem on data races takes them to. */
module LifeFootprint {
  import opened LifeBoard
  import opened LifeProtocol
  import opened LifeTheorems
  import opened Steps

  // ----- writes

  /** A step changes no cell and no slot but those it is said to write. */
  lemma WritesAreAll(c: Config, s: State, t: nat, x: int, y: int, i: int)
    requires Sized(c, s) && t <= c.n && Enabled(c, s, t)
    ensures var s' := Step(c, s, t);
            && (BeforeCell(x, y) !in Writes(c, s, t) ==> At(s'.before, x, y) == At(s.before, x, y))
            && (AfterCellOf(x, y) !in Writes(c, s, t) ==> At(s'.after, x, y) == At(s.after, x, y))
            && (0 <= i <= c.n && Slot(i) !in Writes(c, s, t) ==> s'.mailboxes[i] == s.mailboxes[i])
  {
    hide ParentStep, WorkerStep, Writes;
    if t == 0 { ParentWrites(c, s, x, y, i); } else { WorkerWrites(c, s, t, x, y, i); }
  }

  lemma ParentWrites(c: Config, s: State, x: int, y: int, i: int)
    requires Sized(c, s) && ParentEnabled(c, s)
    ensures var s' := ParentStep(c, s);
            && (BeforeCell(x, y) !in Writes(c, s, 0) ==> At(s'.before, x, y) == At(s.before, x, y))
            && s'.after == s.after
            && (0 <= i <= c.n && Slot(i) !in Writes(c, s, 0) ==> s'.mailboxes[i] == s.mailboxes[i])
  {
    hide Outgoing, AfterSend, AfterRecv, LastCell, NextIndex;
  }

  lemma WorkerWrites(c: Config, s: State, t: nat, x: int, y: int, i: int)
    requires Sized(c, s) && 1 <= t <= c.n && WorkerEnabled(c, s, t)
    ensures var s' := WorkerStep(c, s, t);
            && s'.before == s.before
            && (AfterCellOf(x, y) !in Writes(c, s, t) ==> At(s'.after, x, y) == At(s.after, x, y))
            && (0 <= i <= c.n && Slot(i) !in Writes(c, s, t) ==> s'.mailboxes[i] == s.mailboxes[i])
  {
    hide Test, Rule, AfterFetch, AfterCell, LoopHead, CountStep, ReplyStep, Add;
    if s.workers[t - 1].pc.Count? { CountWrites(c, s, t, x, y); }
    if s.workers[t - 1].pc.Reply? { ReplyWrites(c, s, t, i); }
  }

  lemma CountWrites(c: Config, s: State, t: nat, x: int, y: int)
    requires Sized(c, s) && 1 <= t <= c.n && s.workers[t - 1].pc.Count?
    ensures var s' := CountStep(c, s, t);
            && s'.before == s.before && s'.mailboxes == s.mailboxes
            && (AfterCellOf(x, y) !in Writes(c, s, t) ==> At(s'.after, x, y) == At(s.after, x, y))
  {
    hide Test, Rule, AfterCell;
  }

  lemma ReplyWrites(c: Config, s: State, t: nat, i: int)
    requires Sized(c, s) && 1 <= t <= c.n && s.workers[t - 1].pc.Reply?
    ensures var s' := ReplyStep(c, s, t);
            && s'.before == s.before && s'.after == s.after
            && (0 <= i <= c.n && Slot(i) !in Writes(c, s, t) ==> s'.mailboxes[i] == s.mailboxes[i])
  {
    hide LoopHead, Add;
  }

  // ----- reads

  /** Both states are alike but for the shared memory that has no lock. */
  predicate SameThreads(s: State, s': State)
  {
    && s'.parent == s.parent && s'.workers == s.workers && s'.semS == s.semS && s'.semR == s.semR
    && s'.gendoneSem == s.gendoneSem && s'.alldoneSem == s.alldoneSem && s'.barrierCount == s.barrierCount
    && s'.printed == s.printed
  }

  /** And at the given places they hold the same. */
  ghost predicate Agree(c: Config, s: State, s': State, places: set<Loc>)
    requires Sized(c, s) && Sized(c, s')
  {
    && (forall x, y | BeforeCell(x, y) in places :: At(s'.before, x, y) == At(s.before, x, y))
    && (forall x, y | AfterCellOf(x, y) in places :: At(s'.after, x, y) == At(s.after, x, y))
    && (forall i | 0 <= i <= c.n && Slot(i) in places :: s'.mailboxes[i] == s.mailboxes[i])
  }

  /** What a step of s does to the threads and to the places it writes, it does
      to those of s' as well. */
  ghost predicate Alike(c: Config, s: State, t: nat, next: State, next': State)
    requires Sized(c, s) && t <= c.n
  {
    Sized(c, next) && Sized(c, next') && SameThreads(next, next') && Agree(c, next, next', Writes(c, s, t))
  }

  ghost predicate Twins(c: Config, s: State, s': State, t: nat)
  {
    Sized(c, s) && Sized(c, s') && t <= c.n && SameThreads(s, s') && Agree(c, s, s', Reads(c, s, t))
  }

  /** A step depends on no cell and no slot but those it is said to read. */
  lemma ReadsAreAll(c: Config, s: State, s': State, t: nat)
    requires Twins(c, s, s', t) && Enabled(c, s, t)
    ensures Enabled(c, s', t) && Alike(c, s, t, Step(c, s, t), Step(c, s', t))
  {
    hide Alike, Agree, Reads, CountStep, FetchStep, ReplyStep, BarrierStep, ScanStep, RecvStep, SendStep, CreateStep, JoinStep;
    if t != 0 {
      var pc := s.workers[t - 1].pc;
      if pc.Fetch? { FetchAlike(c, s, s', t); }
      else if pc.Count? { CountAlike(c, s, s', t); }
      else if pc.Reply? { ReplyAlike(c, s, s', t); }
      else { BarrierAlike(c, s, s', t); }
    } else if s.parent.pc.Recv? {
      RecvAlike(c, s, s');
    } else if s.parent.pc.Send? {
      SendAlike(c, s, s');
    } else if s.parent.pc.Create? || s.parent.pc.Join? {
      IdleAlike(c, s, s');
    } else {
      ScanAlike(c, s, s');
    }
  }

  lemma FetchAlike(c: Config, s: State, s': State, t: nat)
    requires Twins(c, s, s', t) && 1 <= t && s.workers[t - 1].pc.Fetch?
    ensures Alike(c, s, t, FetchStep(c, s, t), FetchStep(c, s', t))
  {
    hide AfterFetch, Add, At;
  }

  lemma CountAlike(c: Config, s: State, s': State, t: nat)
    requires Twins(c, s, s', t) && 1 <= t && s.workers[t - 1].pc.Count?
    ensures Alike(c, s, t, CountStep(c, s, t), CountStep(c, s', t))
  {
    hide Near, Guard, Rule, AfterCell;
    var pc := s.workers[t - 1].pc;
    if pc.test < 8 {
      var p := Near(pc.line, pc.column, pc.test);
      assert BeforeCell(p.0, p.1) in Reads(c, s, t);
    } else {
      assert BeforeCell(pc.line, pc.column) in Reads(c, s, t);
    }
  }

  lemma ReplyAlike(c: Config, s: State, s': State, t: nat)
    requires Twins(c, s, s', t) && 1 <= t && s.workers[t - 1].pc.Reply?
    ensures Alike(c, s, t, ReplyStep(c, s, t), ReplyStep(c, s', t))
  {
    hide ReplyStep, Agree, Alike;
    match s.workers[t - 1].pc.op
    case Wait => ReplyWaitAlike(c, s, s', t);
    case Copy => ReplyCopyAlike(c, s, s', t);
    case Post => ReplyPostAlike(c, s, s', t);
  }

  lemma ReplyWaitAlike(c: Config, s: State, s': State, t: nat)
    requires Twins(c, s, s', t) && 1 <= t && s.workers[t - 1].pc.Reply? && s.workers[t - 1].pc.op == Wait
    ensures Alike(c, s, t, ReplyStep(c, s, t), ReplyStep(c, s', t))
  {
    hide Add, At;
  }

  lemma ReplyCopyAlike(c: Config, s: State, s': State, t: nat)
    requires Twins(c, s, s', t) && 1 <= t && s.workers[t - 1].pc.Reply? && s.workers[t - 1].pc.op == Copy
    ensures Alike(c, s, t, ReplyStep(c, s, t), ReplyStep(c, s', t))
  {
    hide Add, At;
  }

  lemma ReplyPostAlike(c: Config, s: State, s': State, t: nat)
    requires Twins(c, s, s', t) && 1 <= t && s.workers[t - 1].pc.Reply? && s.workers[t - 1].pc.op == Post
    ensures Alike(c, s, t, ReplyStep(c, s, t), ReplyStep(c, s', t))
  {
    hide LoopHead, Add, At;
  }

  lemma BarrierAlike(c: Config, s: State, s': State, t: nat)
    requires Twins(c, s, s', t) && 1 <= t && InBarrier(s.workers[t - 1])
    ensures Alike(c, s, t, BarrierStep(c, s, t), BarrierStep(c, s', t))
  {
    hide At;
  }

  lemma RecvAlike(c: Config, s: State, s': State)
    requires Twins(c, s, s', 0) && s.parent.pc.Recv?
    ensures Alike(c, s, 0, RecvStep(c, s), RecvStep(c, s'))
  {
    hide AfterRecv;
  }

  lemma SendAlike(c: Config, s: State, s': State)
    requires Twins(c, s, s', 0) && s.parent.pc.Send? && 0 <= s.parent.pc.i <= c.n
    ensures Alike(c, s, 0, SendStep(c, s), SendStep(c, s'))
  {
    hide SendStep, Agree, Alike;
    if s.parent.pc.op == Copy { SendCopyAlike(c, s, s'); } else { SendOtherAlike(c, s, s'); }
  }

  lemma SendCopyAlike(c: Config, s: State, s': State)
    requires Twins(c, s, s', 0) && s.parent.pc.Send? && 0 <= s.parent.pc.i <= c.n && s.parent.pc.op == Copy
    ensures Alike(c, s, 0, SendStep(c, s), SendStep(c, s'))
  {
    hide Outgoing, Add, At;
  }

  lemma SendOtherAlike(c: Config, s: State, s': State)
    requires Twins(c, s, s', 0) && s.parent.pc.Send? && 0 <= s.parent.pc.i <= c.n && s.parent.pc.op != Copy
    ensures Alike(c, s, 0, SendStep(c, s), SendStep(c, s'))
  {
    hide AfterSend, Add, At;
  }

  lemma IdleAlike(c: Config, s: State, s': State)
    requires Twins(c, s, s', 0) && ParentEnabled(c, s) && (s.parent.pc.Create? || s.parent.pc.Join?)
    ensures Alike(c, s, 0, ParentStep(c, s), ParentStep(c, s'))
  {
  }

  lemma ScanAlike(c: Config, s: State, s': State)
    requires Twins(c, s, s', 0)
    requires s.parent.pc.TestZero? || s.parent.pc.TestSame? || s.parent.pc.Update? || s.parent.pc.Print?
    ensures Alike(c, s, 0, ScanStep(c, s), ScanStep(c, s'))
  {
    hide LastCell, NextIndex;
    var pc := s.parent.pc;
    assert AfterCellOf(pc.line, pc.column) in Reads(c, s, 0);
    assert At(s'.after, pc.line, pc.column) == At(s.after, pc.line, pc.column);
  }
}
