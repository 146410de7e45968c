/** The steps of the parent keep the part of the invariant about messages and
    threads. */
module LifeParent {
  import opened LifeBoard
  import opened LifeProtocol
  import opened LifeInvariant
  import opened LifeSafety
  import opened Steps
  import opened Sums

  /** s' differs from s only in the parent, mailboxes and what the parent writes. */
  ghost predicate OnlyParent(c: Config, s: State, s': State)
  {
    Sized(c, s) && Sized(c, s') && s'.workers == s.workers && s'.after == s.after
    && s'.gendoneSem == s.gendoneSem && s'.alldoneSem == s.alldoneSem && s'.barrierCount == s.barrierCount
  }

  // ----- creating the threads

  lemma CreateKeepsThread(c: Config, s: State, i: int)
    requires c.Valid() && Sized(c, s) && s.parent.pc.Create? && ParentOk(c, s.parent) && 1 <= i <= c.n
    requires WorkerAt(c, s, i) && ChannelAt(c, s, i)
    ensures WorkerAt(c, CreateStep(c, s), i) && ChannelAt(c, CreateStep(c, s), i)
  {
  }

  lemma CreatesUnborn(c: Config, s: State)
    requires c.Valid() && Sized(c, s) && s.parent.pc.Create? && ProtocolOk(c, s)
    ensures ParentOk(c, s.parent) && s.workers[s.parent.pc.i - 1].pc.Unborn? && s.workers[s.parent.pc.i - 1].gen == 1
  {
    assert WorkerAt(c, s, s.parent.pc.i);
  }

  lemma CreateKeepsProtocol(c: Config, s: State)
    requires c.Valid() && Sized(c, s) && s.parent.pc.Create? && ProtocolOk(c, s)
    ensures ProtocolOk(c, CreateStep(c, s))
  {
    hide WorkerOk, ChannelOk;
    var s' := CreateStep(c, s);
    var i := s.parent.pc.i;
    CreatesUnborn(c, s);
    forall j | 1 <= j <= c.n ensures WorkerAt(c, s', j) && ChannelAt(c, s', j) {
      assert WorkerAt(c, s, j) && ChannelAt(c, s, j);
      CreateKeepsThread(c, s, j);
    }
    SumsAfterPut(s, i, s'.workers[i - 1], 0);
    assert CollectOk(c, s');
    assert OnlyWorker(c, s.(parent := s'.parent), s', i);
    QuietKeepsBarrier(c, s.(parent := s'.parent), s', i);
  }

  // ----- sending

  lemma SendKeepsThread(c: Config, s: State, i: int)
    requires c.Valid() && Sized(c, s) && s.parent.pc.Send? && ParentOk(c, s.parent) && 1 <= i <= c.n
    requires ParentEnabled(c, s) && s.parent.pc.op != Post
    requires WorkerAt(c, s, i) && ChannelAt(c, s, i)
    ensures WorkerAt(c, SendStep(c, s), i) && ChannelAt(c, SendStep(c, s), i)
  {
  }

  lemma SendPostKeepsThread(c: Config, s: State, i: int)
    requires c.Valid() && Sized(c, s) && s.parent.pc.Send? && ParentOk(c, s.parent) && 1 <= i <= c.n
    requires s.parent.pc.op == Post
    requires WorkerAt(c, s, i) && ChannelAt(c, s, i)
    ensures WorkerAt(c, SendStep(c, s), i) && ChannelAt(c, SendStep(c, s), i)
  {
    SendPostCounts(c, s, i);
    var p, p' := s.parent, SendStep(c, s).parent;
    assert forall m :: KindNo(p', m) == KindNo(p, m);
  }

  lemma SendPostCounts(c: Config, s: State, i: int)
    requires c.Valid() && Sized(c, s) && s.parent.pc.Send? && ParentOk(c, s.parent) && 1 <= i <= c.n
    requires s.parent.pc.op == Post
    ensures var p, p' := s.parent, SendStep(c, s).parent;
            Stopped(p') == Stopped(p) && p'.cGen == p.cGen && !p'.pc.Create? && p'.allDone == 0
            && SentPast(p', i, 0) == SentPast(p, i, 0) && SentPast(p', i, 1) == SentPast(p, i, 1)
            && SentPast(p', i, 2) == SentPast(p, i, 2) + (if i == p.pc.i then 1 else 0)
  {
  }

  lemma SendKeepsProtocol(c: Config, s: State)
    requires c.Valid() && Sized(c, s) && s.parent.pc.Send? && ParentEnabled(c, s) && ProtocolOk(c, s)
    ensures ProtocolOk(c, SendStep(c, s)) && OnlyParent(c, s, SendStep(c, s))
  {
    var s' := SendStep(c, s);
    SendKeepsCollect(c, s);
    forall j | 1 <= j <= c.n ensures WorkerAt(c, s', j) && ChannelAt(c, s', j) {
      assert WorkerAt(c, s, j) && ChannelAt(c, s, j);
      if s.parent.pc.op == Post { SendPostKeepsThread(c, s, j); } else { SendKeepsThread(c, s, j); }
    }
    BarrierUntouched(c, s, s');
  }

  lemma SendFrame(c: Config, s: State)
    requires c.Valid() && Sized(c, s) && s.parent.pc.Send? && ParentEnabled(c, s) && ParentOk(c, s.parent)
    ensures var s' := SendStep(c, s);
            OnlyParent(c, s, s') && s'.before == s.before && s'.printed == s.printed
            && s'.semR[0] == s.semR[0] && s'.semS[0] == s.semS[0] && s'.mailboxes[0] == s.mailboxes[0]
  {
  }

  lemma SendParent(c: Config, s: State)
    requires c.Valid() && Sized(c, s) && s.parent.pc.Send? && ParentEnabled(c, s) && ParentOk(c, s.parent)
    ensures var p, p' := s.parent, SendStep(c, s).parent;
            ParentOk(c, p') && p'.cGen == p.cGen && !p'.pc.Join? && !p'.pc.Finished?
            && RecvPast(p, 0) == RecvPast(p, 1) == RecvPast(p, 2) == 0
            && RecvPast(p', 0) == RecvPast(p', 1) == RecvPast(p', 2) == 0
  {
    var p := s.parent;
    if p.pc.op == Post && p.pc.i == c.n {
      AllSentParent(c, p);
    } else if p.pc.op == Post {
      assert SendStep(c, s).parent == p.(pc := Send(p.pc.kind, p.pc.i + 1, Wait));
    } else {
      assert SendStep(c, s).parent == p.(pc := Send(p.pc.kind, p.pc.i, if p.pc.op == Wait then Copy else Post));
    }
  }

  lemma AllSentParent(c: Config, p: Parent)
    requires c.Valid() && ParentOk(c, p) && p.pc.Send? && p.pc.op == Post && p.pc.i == c.n
    ensures var p' := AfterSend(p);
            ParentOk(c, p') && p'.cGen == p.cGen && !p'.pc.Join? && !p'.pc.Finished?
            && RecvPast(p', 0) == RecvPast(p', 1) == RecvPast(p', 2) == 0
  {
  }

  lemma SendKeepsCollect(c: Config, s: State)
    requires c.Valid() && Sized(c, s) && s.parent.pc.Send? && ParentEnabled(c, s)
    requires ParentOk(c, s.parent) && CollectOk(c, s)
    ensures var s' := SendStep(c, s);
            OnlyParent(c, s, s') && ParentOk(c, s'.parent) && CollectOk(c, s') && JoinOk(c, s')
  {
    SendFrame(c, s);
    SendParent(c, s);
  }

  lemma BarrierUntouched(c: Config, s: State, s': State)
    requires OnlyParent(c, s, s') && BarrierOk(c, s)
    ensures BarrierOk(c, s')
  {
    forall k | 0 <= k < c.n ensures AtBarrierOk(c, s', s'.workers[k], Permits(s')) {
      assert AtBarrierOk(c, s, s.workers[k], Permits(s));
    }
  }

  // ----- receiving

  lemma RecvKeepsThread(c: Config, s: State, i: int)
    requires c.Valid() && Sized(c, s) && s.parent.pc.Recv? && ParentOk(c, s.parent) && 1 <= i <= c.n
    requires ParentEnabled(c, s) && WorkerAt(c, s, i) && ChannelAt(c, s, i)
    requires s.parent.pc.op == Post && s.parent.pc.i == c.n && s.parent.cGen < c.generations ==>
               s.workers[i - 1].gen == s.parent.cGen + 2
    ensures WorkerAt(c, RecvStep(c, s), i) && ChannelAt(c, RecvStep(c, s), i)
  {
    var p, p' := s.parent, RecvStep(c, s).parent;
    assert !Stopped(p) && !Stopped(p');
    assert Base(p') == Base(p);
  }

  /** Before the last receipt of a round is counted. */
  lemma RecvKeepsCollect(c: Config, s: State)
    requires c.Valid() && Sized(c, s) && s.parent.pc.Recv? && ParentOk(c, s.parent) && ParentEnabled(c, s)
    requires CollectOk(c, s)
    requires !(s.parent.pc.op == Post && s.parent.pc.i == c.n)
    ensures CollectOk(c, RecvStep(c, s)) && ParentOk(c, RecvStep(c, s).parent)
  {
    forall k | 0 <= k < |s.workers| ensures Deposited(s.workers[k]) <= CopiedIn(s.workers[k]) {}
    SumGap(s.workers, Deposited, CopiedIn, s.parent.cGen, 0, 0);
  }

  lemma RoundEndKeepsCollect(c: Config, s: State)
    requires c.Valid() && Sized(c, s) && s.parent.pc.Recv? && ParentOk(c, s.parent)
    requires CollectOk(c, s) && s.parent.pc.op == Post && s.parent.pc.i == c.n
    requires Sum(s.workers, CopiedIn, s.parent.cGen) == c.n
    ensures CollectOk(c, RecvStep(c, s)) && ParentOk(c, RecvStep(c, s).parent)
  {
    SumShift(s.workers, Deposited, s.parent.cGen);
    SumShift(s.workers, CopiedIn, s.parent.cGen);
    SumShift(s.workers, Claimed, s.parent.cGen);
  }

  lemma RecvKeepsProtocol(c: Config, s: State)
    requires c.Valid() && Sized(c, s) && s.parent.pc.Recv? && ParentEnabled(c, s) && ProtocolOk(c, s)
    ensures ProtocolOk(c, RecvStep(c, s)) && OnlyParent(c, s, RecvStep(c, s))
  {
    hide WorkerOk, ChannelOk, AtBarrierOk, Sum, CollectOk;
    var s' := RecvStep(c, s);
    if s.parent.pc.op == Post && s.parent.pc.i == c.n {
      RoundComplete(c, s);
      RoundEndKeepsCollect(c, s);
    } else {
      RecvKeepsCollect(c, s);
    }
    forall j | 1 <= j <= c.n ensures WorkerAt(c, s', j) && ChannelAt(c, s', j) {
      assert WorkerAt(c, s, j) && ChannelAt(c, s, j);
      RecvKeepsThread(c, s, j);
    }
    BarrierUntouched(c, s, s');
  }

  // ----- scanning and joining

  lemma ScanKeepsThread(c: Config, s: State, i: int)
    requires c.Valid() && Sized(c, s) && ParentOk(c, s.parent) && 1 <= i <= c.n
    requires s.parent.pc.TestZero? || s.parent.pc.TestSame? || s.parent.pc.Update? || s.parent.pc.Print?
    requires WorkerAt(c, s, i) && ChannelAt(c, s, i)
    ensures WorkerAt(c, ScanStep(c, s), i) && ChannelAt(c, ScanStep(c, s), i)
  {
    BusyInRound(c, s, i);
    var p, p' := s.parent, ScanStep(c, s).parent;
    assert Base(p') == Base(p) && p'.cGen == p.cGen;
    assert forall stage | 0 <= stage <= 2 :: SentPast(p', i, stage) == Base(p);
  }

  lemma ScanKeepsProtocol(c: Config, s: State)
    requires c.Valid() && Sized(c, s) && ProtocolOk(c, s)
    requires s.parent.pc.TestZero? || s.parent.pc.TestSame? || s.parent.pc.Update? || s.parent.pc.Print?
    ensures ProtocolOk(c, ScanStep(c, s)) && OnlyParent(c, s, ScanStep(c, s))
  {
    hide WorkerOk, ChannelOk, AtBarrierOk, At, Sum;
    var s' := ScanStep(c, s);
    forall j | 1 <= j <= c.n ensures WorkerAt(c, s', j) && ChannelAt(c, s', j) {
      assert WorkerAt(c, s, j) && ChannelAt(c, s, j);
      ScanKeepsThread(c, s, j);
    }
    BarrierUntouched(c, s, s');
  }

  lemma JoinKeepsThread(c: Config, s: State, i: int)
    requires c.Valid() && Sized(c, s) && s.parent.pc.Join? && 1 <= i <= c.n && WorkerAt(c, s, i) && ChannelAt(c, s, i)
    ensures WorkerAt(c, JoinStep(c, s), i) && ChannelAt(c, JoinStep(c, s), i)
  {
  }

  lemma JoinKeepsProtocol(c: Config, s: State)
    requires c.Valid() && Sized(c, s) && s.parent.pc.Join? && ParentEnabled(c, s) && ProtocolOk(c, s)
    ensures ProtocolOk(c, JoinStep(c, s)) && OnlyParent(c, s, JoinStep(c, s))
  {
    hide WorkerOk, ChannelOk, AtBarrierOk, Sum;
    var s' := JoinStep(c, s);
    forall j | 1 <= j <= c.n ensures WorkerAt(c, s', j) && ChannelAt(c, s', j) {
      assert WorkerAt(c, s, j) && ChannelAt(c, s, j);
      JoinKeepsThread(c, s, j);
    }
    BarrierUntouched(c, s, s');
  }

  lemma ParentKeepsProtocol(c: Config, s: State)
    requires c.Valid() && Sized(c, s) && ParentEnabled(c, s) && ProtocolOk(c, s)
    ensures ProtocolOk(c, ParentStep(c, s))
    ensures !s.parent.pc.Create? ==> OnlyParent(c, s, ParentStep(c, s))
  {
    var pc := s.parent.pc;
    if pc.Create? { CreateKeepsProtocol(c, s); }
    else if pc.Send? { SendKeepsProtocol(c, s); }
    else if pc.Recv? { RecvKeepsProtocol(c, s); }
    else if pc.Join? { JoinKeepsProtocol(c, s); }
    else { ScanKeepsProtocol(c, s); }
  }
}
