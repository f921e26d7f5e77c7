/** The connection queue, the worker pool and the shutdown flags. */
module ServerPool {
  import opened Files
  import opened LogTheorems
  import opened Server
  import opened ServerMutex

  /** What is queued is what was accepted and not yet popped, in order. */
  ghost predicate QueueInOrder(pool: Pool) {
    && pool.served <= |pool.accepted|
    && pool.conns == pool.accepted[pool.served..]
    && forall k :: 0 <= k < |pool.accepted| ==> pool.accepted[k] >= 0
  }

  /** The thread has popped a descriptor and still uses it. */
  predicate InService(pc: PC) {
    match pc
    case Conn(c) => c.RelConn? || c.WantAdd? || c.DoAdd? || c.RelAdd? || c.FdTest? || c.ReadReq?
    case Req(_) => true
    case Locking(_) => true
    case Section(_) => true
    case Marking(_, _) => true
    case Logging(_, _) => true
    case _ => false
  }

  /** A thread in service has its own entry of the accepted descriptors, already popped; the
      main thread carries a real descriptor to the queue. */
  ghost predicate Serves(pool: Pool, t: Thread) {
    && (InService(t.pc) ==> t.slot < pool.served <= |pool.accepted| && t.fd == pool.accepted[t.slot])
    && (t.pc == Main(WantPush) || t.pc == Main(PushConn) ==> t.fd >= 0)
  }

  ghost predicate Flagged(pool: Pool) {
    pool.closing || !pool.accepting
  }

  /** What the holder of the connection mutex knows. */
  ghost predicate ConnAssertion(pool: Pool, t: Thread) {
    && (t.pc == Conn(PopConn) ==> pool.conns != [])
    && (t.pc == Conn(FlagTest) ==> pool.conns != [] || Flagged(pool))
  }

  /** The signal thread has broadcast to the workers waiting for a connection. */
  predicate HasBroadcast(pc: PC) {
    pc.Signal? && (pc.g.MonRelC? || pc.g.MonWantQ? || pc.g.MonBcastQ? || pc.g.MonRelQ? || pc.g.MonDone?)
  }

  /** The thread is asleep on the connection condition or about to sleep there. */
  predicate WaitsForConn(pc: PC) {
    pc == Conn(WaitConn) || pc == Conn(AsleepConn)
  }

  ghost predicate PoolInv(s: State) {
    && QueueInOrder(s.pool)
    && (forall i :: 0 <= i < |s.threads| ==> Serves(s.pool, s.threads[i]))
    && (forall i, j :: 0 <= i < j < |s.threads| && InService(s.threads[i].pc) && InService(s.threads[j].pc)
          ==> s.threads[i].slot != s.threads[j].slot)
    && (ConnM in s.holder && s.holder[ConnM] < |s.threads| ==> ConnAssertion(s.pool, s.threads[s.holder[ConnM]]))
    && (forall i :: 0 <= i < |s.threads| && s.threads[i].pc.Signal? && s.threads[i].pc != Signal(Sigwait)
          ==> Flagged(s.pool))
    && (forall i, j :: 0 <= i < |s.threads| && 0 <= j < |s.threads| && HasBroadcast(s.threads[i].pc)
          ==> !WaitsForConn(s.threads[j].pc))
  }

  /** Only the holder of the connection mutex changes the queue; the flags are never unset. */
  lemma PoolFrame(pool: Pool, t: Thread, ch: Choice)
    requires Fetch(t.pc).PoolOp? || Fetch(t.pc).FromOutside?
    ensures var (pool', t') := PoolStep(pool, t, ch);
            && (!Holds(t.pc, ConnM) ==> pool'.conns == pool.conns && pool'.accepted == pool.accepted && pool'.served == pool.served)
            && (Flagged(pool) ==> Flagged(pool'))
            && (t'.pc.Signal? && t'.pc != Signal(Sigwait) ==> Flagged(pool'))
  {
  }

  /** The accesses that change the queue: a push at the end, a pop at the front. */
  lemma QueueStaysInOrder(pool: Pool, t: Thread, ch: Choice)
    requires Fetch(t.pc).PoolOp? || Fetch(t.pc).FromOutside?
    requires QueueInOrder(pool) && (t.pc == Main(PushConn) ==> t.fd >= 0)
    ensures var pool' := PoolStep(pool, t, ch).0;
            QueueInOrder(pool') && pool.served <= pool'.served && pool.accepted <= pool'.accepted
  {
    if t.pc == Main(PushConn) {
      assert (pool.accepted + [t.fd])[pool.served..] == pool.conns + [t.fd];
    } else if t.pc == Conn(PopConn) {
    } else {
      SamePlaces(pool, t, ch);
    }
  }

  lemma SamePlaces(pool: Pool, t: Thread, ch: Choice)
    requires t.pc != Main(PushConn) && t.pc != Conn(PopConn)
    ensures var pool' := PoolStep(pool, t, ch).0;
            pool'.conns == pool.conns && pool'.accepted == pool.accepted && pool'.served == pool.served
  {
  }

  /** Popping gives the thread the oldest waiting descriptor. */
  lemma PopSelf(pool: Pool, t: Thread, ch: Choice)
    requires t.pc == Conn(PopConn) && QueueInOrder(pool) && pool.conns != []
    ensures var (pool', t') := PoolStep(pool, t, ch);
            t'.pc == Conn(RelConn) && t'.slot == pool.served < pool'.served && t'.fd == pool'.accepted[t'.slot]
  {
  }

  lemma ConnSelf(pool: Pool, t: Thread, c: ConnPC, ch: Choice)
    requires t.pc == Conn(c) && (FetchConn(c).PoolOp? || FetchConn(c).FromOutside?) && c != PopConn
    requires Serves(pool, t)
    ensures var (pool', t') := ConnStep(pool, t, c, ch);
            && pool'.accepted == pool.accepted && pool'.served == pool.served && pool'.conns == pool.conns
            && !t'.pc.Crashed? && t'.slot == t.slot && t'.fd == t.fd
            && (InService(t'.pc) ==> InService(t.pc))
            && (t'.pc == Conn(PopConn) ==> t.pc == Conn(FlagTest) && !Flagged(pool))
            && (t'.pc == Conn(FlagTest) ==> pool.conns != [] || Flagged(pool))
            && t'.pc != Main(WantPush) && t'.pc != Main(PushConn)
            && (Flagged(pool) ==> Flagged(pool'))
  {
  }

  /** A pool access gives its own thread the entry it pops, or leaves it the one it has. */
  lemma PoolSelf(pool: Pool, t: Thread, ch: Choice)
    requires Fetch(t.pc).PoolOp? || Fetch(t.pc).FromOutside?
    requires QueueInOrder(pool) && Serves(pool, t) && (Holds(t.pc, ConnM) ==> ConnAssertion(pool, t))
    ensures var (pool', t') := PoolStep(pool, t, ch);
            && !t'.pc.Crashed?
            && Serves(pool', t')
            && (InService(t'.pc) ==> (InService(t.pc) && t'.slot == t.slot) || t'.slot == pool.served)
            && (Holds(t.pc, ConnM) ==> ConnAssertion(pool', t'))
  {
    if t.pc == Conn(PopConn) {
      PopSelf(pool, t, ch);
    } else if t.pc.Conn? {
      ConnSelf(pool, t, t.pc.c, ch);
    }
  }

  lemma PoolWaits(pool: Pool, t: Thread, ch: Choice)
    requires Fetch(t.pc).PoolOp? || Fetch(t.pc).FromOutside?
    ensures var t' := PoolStep(pool, t, ch).1;
            !HasBroadcast(t'.pc) && (WaitsForConn(t'.pc) ==> !Flagged(pool))
  {
  }

  /** The thread still serves the same entry. */
  ghost predicate SameEntry(t: Thread, t': Thread) {
    t'.slot == t.slot && t'.fd == t.fd && !t'.pc.Main? && !t'.pc.Signal? && !t'.pc.Conn?
  }

  lemma ReqSelf(cfg: Config, sh: Shared, t: Thread, r: ReqPC)
    requires FetchReq(r).FileOp?
    ensures SameEntry(t, ReqStep(cfg, sh, t, r).1)
  {
  }

  lemma LockSelf(cfg: Config, sh: Shared, t: Thread, l: LockPC)
    requires FetchLocking(l).FileOp?
    ensures SameEntry(t, LockStep(cfg, sh, t, l).1)
  {
  }

  lemma SectionSelf(cfg: Config, sh: Shared, t: Thread, s: SectionPC)
    requires t.pc == Section(s)
    ensures SameEntry(t, SectionStep(cfg, sh, t, s).1)
  {
  }

  lemma MarkSelf(sh: Shared, t: Thread, k: Mark, m: MarkPC)
    requires t.pc == Marking(k, m)
    ensures SameEntry(t, MarkStep(sh, t, k, m).1)
  {
  }

  /** Every other instruction leaves the entry alone. */
  lemma FileSelf(cfg: Config, sh: Shared, t: Thread)
    requires Fetch(t.pc).FileOp?
    ensures InService(t.pc) && SameEntry(t, FileStep(cfg, sh, t).1)
  {
    match t.pc
    case Req(r) => ReqSelf(cfg, sh, t, r);
    case Locking(l) => LockSelf(cfg, sh, t, l);
    case Section(s) => SectionSelf(cfg, sh, t, s);
    case Marking(k, m) => MarkSelf(sh, t, k, m);
  }

  /** Moving to the next program point keeps what a thread knows, unless it just took the
      connection mutex or made the broadcast. */
  lemma NextSelf(pool: Pool, t: Thread)
    requires Moves(Fetch(t.pc))
    requires Serves(pool, t)
    ensures var n := Fetch(t.pc).next;
            && Serves(pool, t.(pc := n))
            && (InService(n) ==> InService(t.pc))
            && ConnAssertion(pool, t.(pc := n))
            && (n.Signal? ==> t.pc.Signal? && t.pc != Signal(Sigwait))
            && (HasBroadcast(n) ==> HasBroadcast(t.pc) || t.pc == Signal(MonBcastC))
            && (WaitsForConn(n) ==> t.pc == Conn(WaitConn))
  {
  }

  // ----- Steps of the whole server -----

  /** The threads as a step leaves them, seen through the pool: everybody but `i` keeps place and
      entry, or is woken. */
  lemma OthersStay(cfg: Config, s: State, i: nat, ch: Choice, j: nat)
    requires Enabled(s, i, ch) && j < |s.threads| && j != i
    ensures var t' := Fire(cfg, s, i, ch).threads[j];
            && t'.slot == s.threads[j].slot && t'.fd == s.threads[j].fd
            && (InService(t'.pc) <==> InService(s.threads[j].pc))
            && (t'.pc.Main? || t'.pc.Signal? || t'.pc == Conn(WaitConn) || t'.pc == Conn(PopConn) || t'.pc == Conn(FlagTest)
                ==> t' == s.threads[j])
            && (t'.pc == Conn(AsleepConn) ==>
                  t' == s.threads[j] && !(Fetch(s.threads[i].pc).WakeAll? && Fetch(s.threads[i].pc).c == ConnC))
  {
    StepFrame(cfg, s, i, ch, j);
  }

  /** What a step means for the pool and for the thread that makes it. */
  ghost predicate PoolMoved(pool: Pool, t: Thread, pool': Pool, t': Thread) {
    && QueueInOrder(pool') && pool.accepted <= pool'.accepted && pool.served <= pool'.served
    && (Flagged(pool) ==> Flagged(pool'))
    && (t'.pc.Crashed? ==> Fetch(t.pc).FileOp?)
    && Serves(pool', t')
    && (InService(t'.pc) ==> (InService(t.pc) && t'.slot == t.slot) || t'.slot == pool.served)
    && (t'.pc.Signal? && t'.pc != Signal(Sigwait) ==> Flagged(pool'))
    && (HasBroadcast(t'.pc) ==> HasBroadcast(t.pc) || t.pc == Signal(MonBcastC))
    && (WaitsForConn(t'.pc) ==> t.pc == Conn(WaitConn) || !Flagged(pool))
    && (Holds(t'.pc, ConnM) ==> ConnAssertion(pool', t'))
    && (!Holds(t.pc, ConnM) ==> pool'.conns == pool.conns && pool'.served == pool.served)
  }

  lemma FileMoves(cfg: Config, sh: Shared, pool: Pool, t: Thread)
    requires Fetch(t.pc).FileOp? && QueueInOrder(pool) && Serves(pool, t)
    ensures PoolMoved(pool, t, pool, FileStep(cfg, sh, t).1)
  {
    FileSelf(cfg, sh, t);
    FileStepHolds(cfg, sh, t, ConnM);
  }

  lemma PoolMoves(pool: Pool, t: Thread, ch: Choice)
    requires Fetch(t.pc).PoolOp? || Fetch(t.pc).FromOutside?
    requires QueueInOrder(pool) && Serves(pool, t) && (Holds(t.pc, ConnM) ==> ConnAssertion(pool, t))
    ensures PoolMoved(pool, t, PoolStep(pool, t, ch).0, PoolStep(pool, t, ch).1)
  {
    PoolFrame(pool, t, ch);
    QueueStaysInOrder(pool, t, ch);
    PoolWaits(pool, t, ch);
    PoolSelf(pool, t, ch);
    PoolStepHolds(pool, t, ch, ConnM);
  }

  lemma NextMoves(pool: Pool, t: Thread)
    requires Moves(Fetch(t.pc))
    requires QueueInOrder(pool) && Serves(pool, t) && (t.pc.Signal? && t.pc != Signal(Sigwait) ==> Flagged(pool))
    ensures PoolMoved(pool, t, pool, t.(pc := Fetch(t.pc).next))
  {
    NextSelf(pool, t);
  }

  /** What a thread knows of the pool. */
  ghost predicate Knows(pool: Pool, t: Thread) {
    && QueueInOrder(pool) && Serves(pool, t)
    && (Holds(t.pc, ConnM) ==> ConnAssertion(pool, t))
    && (t.pc.Signal? && t.pc != Signal(Sigwait) ==> Flagged(pool))
  }

  lemma EachKnows(s: State, i: nat)
    requires PoolInv(s) && Exclusive(s) && i < |s.threads|
    ensures Knows(s.pool, s.threads[i])
  {
  }

  /** The stepping thread, seen through the pool. */
  lemma SelfMoves(cfg: Config, s: State, i: nat, ch: Choice)
    requires Enabled(s, i, ch) && PoolInv(s) && Exclusive(s)
    ensures var s' := Fire(cfg, s, i, ch);
            PoolMoved(s.pool, s.threads[i], s'.pool, s'.threads[i])
  {
    EachKnows(s, i);
    KnowerMoves(cfg, s, i, ch);
  }

  lemma KnowerMoves(cfg: Config, s: State, i: nat, ch: Choice)
    requires Enabled(s, i, ch) && Knows(s.pool, s.threads[i])
    ensures var s' := Fire(cfg, s, i, ch);
            PoolMoved(s.pool, s.threads[i], s'.pool, s'.threads[i])
  {
    var t := s.threads[i];
    StepSelf(cfg, s, i, ch);
    if Fetch(t.pc).FileOp? {
      FileMoves(cfg, s.sh, s.pool, t);
    } else if Fetch(t.pc).PoolOp? || Fetch(t.pc).FromOutside? {
      PoolMoves(s.pool, t, ch);
    } else if !Fetch(t.pc).Receiving? {
      NextMoves(s.pool, t);
    }
  }

  lemma PoolInvStep(cfg: Config, s: State, i: nat, ch: Choice)
    requires Enabled(s, i, ch) && PoolInv(s) && Exclusive(s) && NoCrash(s)
    ensures PoolInv(Fire(cfg, s, i, ch))
  {
    var s' := Fire(cfg, s, i, ch);
    SelfMoves(cfg, s, i, ch);
    forall j: nat | j < |s.threads| && j != i
      ensures Serves(s'.pool, s'.threads[j]) && s'.threads[j].slot == s.threads[j].slot
      ensures InService(s'.threads[j].pc) <==> InService(s.threads[j].pc)
    {
      OthersStay(cfg, s, i, ch, j);
      assert Serves(s.pool, s.threads[j]);
    }
    ConnHolderStep(cfg, s, i, ch);
    FlagsStep(cfg, s, i, ch);
    BroadcastStep(cfg, s, i, ch);
  }

  lemma ConnHolderStep(cfg: Config, s: State, i: nat, ch: Choice)
    requires Enabled(s, i, ch) && PoolInv(s) && Exclusive(s) && NoCrash(s)
    ensures var s' := Fire(cfg, s, i, ch);
            ConnM in s'.holder ==> s'.holder[ConnM] < |s'.threads| && ConnAssertion(s'.pool, s'.threads[s'.holder[ConnM]])
  {
    var s' := Fire(cfg, s, i, ch);
    ExclusiveStep(cfg, s, i, ch);
    SelfMoves(cfg, s, i, ch);
    if ConnM in s'.holder && s'.holder[ConnM] != i {
      var h := s'.holder[ConnM];
      StepHolds(cfg, s, i, ch, h, ConnM);
      OthersStay(cfg, s, i, ch, h);
      assert Holds(s.threads[h].pc, ConnM);
      assert !Holds(s.threads[i].pc, ConnM);
    }
  }

  lemma FlagsStep(cfg: Config, s: State, i: nat, ch: Choice)
    requires Enabled(s, i, ch) && PoolInv(s) && Exclusive(s)
    ensures var s' := Fire(cfg, s, i, ch);
            forall j :: 0 <= j < |s'.threads| && s'.threads[j].pc.Signal? && s'.threads[j].pc != Signal(Sigwait)
              ==> Flagged(s'.pool)
  {
    var s' := Fire(cfg, s, i, ch);
    SelfMoves(cfg, s, i, ch);
    forall j: nat | j < |s'.threads| && j != i && s'.threads[j].pc.Signal? && s'.threads[j].pc != Signal(Sigwait)
      ensures Flagged(s'.pool)
    {
      OthersStay(cfg, s, i, ch, j);
      assert s.threads[j].pc.Signal?;
    }
  }

  /** After the broadcast nobody waits for a connection: whoever was asleep has been woken, nobody
      was on the way to sleep because the broadcaster held the mutex, and whoever tests the flags
      afterwards sees them. */
  lemma BroadcastStep(cfg: Config, s: State, i: nat, ch: Choice)
    requires Enabled(s, i, ch) && PoolInv(s) && Exclusive(s)
    ensures var s' := Fire(cfg, s, i, ch);
            forall a, b :: 0 <= a < |s'.threads| && 0 <= b < |s'.threads| && HasBroadcast(s'.threads[a].pc)
              ==> !WaitsForConn(s'.threads[b].pc)
  {
    var s' := Fire(cfg, s, i, ch);
    SelfMoves(cfg, s, i, ch);
    forall a: nat, b: nat | a < |s'.threads| && b < |s'.threads| && HasBroadcast(s'.threads[a].pc)
      ensures !WaitsForConn(s'.threads[b].pc)
    {
      if a != i {
        OthersStay(cfg, s, i, ch, a);
        assert HasBroadcast(s.threads[a].pc);
        assert Flagged(s.pool);
      }
      if b != i {
        OthersStay(cfg, s, i, ch, b);
      }
      assert HasBroadcast(s.threads[a].pc) ==> !WaitsForConn(s.threads[b].pc);
      if a == i && b != i && !HasBroadcast(s.threads[a].pc) {
        OneHolder(s, i, b, ConnM);
      }
    }
  }
}
