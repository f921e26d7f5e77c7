/** Counting threads. No accepted connection is forgotten, and the connection counter is right. The main
    thread signals once for each descriptor it queues, and a worker may take one that another was woken for;
    so the argument counts. */
module ServerConnections {
  import opened Files
  import opened Server
  import opened ServerMutex
  import opened ServerPool
  import opened ServerRuns

  /** The thread will look at the connection queue before it sleeps, or is about to wake one that will. */
  predicate Heads(pc: PC) {
    || pc == Main(SignalConn)
    || (pc.Conn? && (pc.c.WokenConn? || pc.c.TestConn? || pc.c.FlagTest? || pc.c.PopConn?))
  }

  /** The thread has counted its connection in and not yet counted it out. */
  predicate CountedIn(pc: PC) {
    match pc
    case Conn(c) => c.RelAdd? || c.FdTest? || c.ReadReq? || c.AfterConn? || c.WantSub? || c.DoSub?
    case Req(_) => true
    case Locking(_) => true
    case Section(_) => true
    case Marking(_, _) => true
    case Logging(_, _) => true
    case _ => false
  }

  /** What threads are counted for. */
  datatype Sort = Heading | Serving

  predicate OfSort(k: Sort, pc: PC) {
    if k == Heading then Heads(pc) else CountedIn(pc)
  }

  function One(b: bool): nat {
    if b then 1 else 0
  }

  /** How many of the first `n` threads are of that sort. */
  function Number(k: Sort, ts: seq<Thread>, n: nat): nat
    requires n <= |ts|
  {
    if n == 0 then 0 else Number(k, ts, n - 1) + One(OfSort(k, ts[n - 1].pc))
  }

  lemma {:induction false} NumberSame(k: Sort, ts: seq<Thread>, us: seq<Thread>, n: nat)
    requires n <= |ts| && n <= |us| && forall j :: 0 <= j < n ==> OfSort(k, ts[j].pc) == OfSort(k, us[j].pc)
    ensures Number(k, ts, n) == Number(k, us, n)
  {
    if n > 0 {
      NumberSame(k, ts, us, n - 1);
    }
  }

  lemma {:induction false} NumberUpdate(k: Sort, ts: seq<Thread>, i: nat, t: Thread, n: nat)
    requires i < n <= |ts|
    ensures Number(k, ts[i := t], n) == Number(k, ts, n) - One(OfSort(k, ts[i].pc)) + One(OfSort(k, t.pc))
  {
    if i == n - 1 {
      NumberSame(k, ts[i := t], ts, i);
    } else {
      NumberUpdate(k, ts, i, t, n - 1);
    }
  }

  lemma {:induction false} OneIsThere(k: Sort, ts: seq<Thread>, n: nat)
    requires n <= |ts| && Number(k, ts, n) > 0
    ensures exists j :: 0 <= j < n && OfSort(k, ts[j].pc)
  {
    if !OfSort(k, ts[n - 1].pc) {
      OneIsThere(k, ts, n - 1);
    }
  }

  ghost predicate NobodyWaits(ts: seq<Thread>) {
    forall j :: 0 <= j < |ts| ==> !WaitsForConn(ts[j].pc)
  }

  /** Unless the server is ending: as long as a worker waits for a connection there are enough threads on
      their way to the queue to take all that it holds, and the counter says how many connections are
      counted in. */
  ghost predicate Matched(pool: Pool, ts: seq<Thread>) {
    || Flagged(pool)
    || ((NobodyWaits(ts) || |pool.conns| <= Number(Heading, ts, |ts|))
        && pool.connections == Number(Serving, ts, |ts|))
  }

  /** What a step means for the queue and for the thread that makes it. */
  ghost predicate Balanced(pool: Pool, t: Thread, pool': Pool, t': Thread) {
    && (Flagged(pool) ==> Flagged(pool'))
    && (Flagged(pool') || pool'.conns == []
        || |pool'.conns| - |pool.conns| <= One(Heads(t'.pc)) - One(Heads(t.pc)))
    && (WaitsForConn(t'.pc) ==> WaitsForConn(t.pc) || pool'.conns == [])
    && (Flagged(pool') || pool'.connections - pool.connections == One(CountedIn(t'.pc)) - One(CountedIn(t.pc)))
  }

  lemma PoolBalances(pool: Pool, t: Thread, ch: Choice)
    requires Fetch(t.pc).PoolOp? || Fetch(t.pc).FromOutside?
    requires Knows(pool, t)
    ensures Balanced(pool, t, PoolStep(pool, t, ch).0, PoolStep(pool, t, ch).1)
  {
    if t.pc.Conn? {
      ConnBalances(pool, t, t.pc.c, ch);
    }
  }

  lemma ConnBalances(pool: Pool, t: Thread, c: ConnPC, ch: Choice)
    requires t.pc == Conn(c) && Knows(pool, t)
    ensures Balanced(pool, t, ConnStep(pool, t, c, ch).0, ConnStep(pool, t, c, ch).1)
  {
  }

  lemma MoveBalances(pool: Pool, t: Thread)
    requires Moves(Fetch(t.pc)) && !Fetch(t.pc).WakeOne?
    ensures Balanced(pool, t, pool, t.(pc := Fetch(t.pc).next))
  {
  }

  lemma FileBalances(cfg: Config, sh: Shared, pool: Pool, t: Thread)
    requires Fetch(t.pc).FileOp? && !FileStep(cfg, sh, t).1.pc.Crashed?
    ensures Balanced(pool, t, pool, FileStep(cfg, sh, t).1)
  {
    FileSelf(cfg, sh, t);
  }

  lemma MatchedUpdate(pool: Pool, ts: seq<Thread>, i: nat, pool': Pool, t': Thread)
    requires Matched(pool, ts) && i < |ts| && Balanced(pool, ts[i], pool', t')
    ensures Matched(pool', ts[i := t'])
  {
    NumberUpdate(Heading, ts, i, t', |ts|);
    NumberUpdate(Serving, ts, i, t', |ts|);
  }

  // ----- Steps of the whole server -----

  lemma MatchedWoken(pool: Pool, ts: seq<Thread>, j: nat)
    requires Matched(pool, ts) && j < |ts| && AsleepOn(ts[j], ConnC)
    ensures var us := ts[j := Wake(ts[j])];
            || Flagged(pool)
            || (|pool.conns| + 1 <= Number(Heading, us, |us|) && pool.connections == Number(Serving, us, |us|))
  {
    SleeperHeads(ts[j]);
    NumberUpdate(Heading, ts, j, Wake(ts[j]), |ts|);
    NumberUpdate(Serving, ts, j, Wake(ts[j]), |ts|);
  }

  lemma MatchedSignal(pool: Pool, ts: seq<Thread>, i: nat, t': Thread)
    requires i < |ts| && ts[i].pc == Main(SignalConn) && t'.pc == Main(RelPush)
    requires Flagged(pool) || pool.connections == Number(Serving, ts, |ts|)
    requires Flagged(pool) || NobodyWaits(ts) || |pool.conns| + 1 <= Number(Heading, ts, |ts|)
    ensures Matched(pool, ts[i := t'])
  {
    NumberUpdate(Heading, ts, i, t', |ts|);
    NumberUpdate(Serving, ts, i, t', |ts|);
  }

  /** While the main thread signals, it has the mutex, so nobody is on the way to sleep. */
  lemma NobodyGoesToSleep(s: State, i: nat)
    requires Exclusive(s) && i < |s.threads| && s.threads[i].pc == Main(SignalConn)
    requires forall j :: 0 <= j < |s.threads| ==> !AsleepOn(s.threads[j], ConnC)
    ensures NobodyWaits(s.threads)
  {
    forall j: nat | j < |s.threads| ensures !WaitsForConn(s.threads[j].pc) {
      if j != i {
        assert !AsleepOn(s.threads[j], ConnC);
        OneHolder(s, i, j, ConnM);
      }
    }
  }

  /** A signal wakes one sleeper, if there is one. */
  lemma SignalMatches(cfg: Config, s: State, i: nat, ch: Choice)
    requires Exclusive(s) && Enabled(s, i, ch) && s.threads[i].pc == Main(SignalConn) && Matched(s.pool, s.threads)
    ensures Matched(Fire(cfg, s, i, ch).pool, Fire(cfg, s, i, ch).threads)
  {
    var ts, t' := s.threads, s.threads[i].(pc := Main(RelPush));
    if exists j :: 0 <= j < |ts| && AsleepOn(ts[j], ConnC) {
      MatchedWoken(s.pool, ts, ch.wake);
      MatchedSignal(s.pool, ts[ch.wake := Wake(ts[ch.wake])], i, t');
    } else {
      NobodyGoesToSleep(s, i);
      MatchedSignal(s.pool, ts, i, t');
    }
  }

  lemma SleeperHeads(t: Thread)
    requires AsleepOn(t, ConnC)
    ensures t.pc == Conn(AsleepConn) && Wake(t).pc == Conn(WokenConn)
  {
  }

  /** A broadcast to those who wait for a file lock, or to nobody. */
  lemma OtherBroadcast(ts: seq<Thread>, c: Cond)
    requires c != ConnC
    ensures forall k :: Number(k, WakeThreads(ts, c), |ts|) == Number(k, ts, |ts|)
    ensures NobodyWaits(WakeThreads(ts, c)) == NobodyWaits(ts)
  {
    var us := WakeThreads(ts, c);
    forall j: nat | j < |ts|
      ensures Heads(us[j].pc) == Heads(ts[j].pc) && CountedIn(us[j].pc) == CountedIn(ts[j].pc)
      ensures WaitsForConn(us[j].pc) == WaitsForConn(ts[j].pc)
    {
      if AsleepOn(ts[j], c) {
        WokenElsewhere(ts[j], c);
      }
    }
    NumberSame(Heading, us, ts, |ts|);
    NumberSame(Serving, us, ts, |ts|);
  }

  lemma WokenElsewhere(t: Thread, c: Cond)
    requires c != ConnC && AsleepOn(t, c)
    ensures !Heads(t.pc) && !Heads(Wake(t).pc) && !WaitsForConn(t.pc) && !WaitsForConn(Wake(t).pc)
    ensures CountedIn(t.pc) == CountedIn(Wake(t).pc)
  {
  }

  lemma BroadcastMatches(cfg: Config, s: State, i: nat, ch: Choice)
    requires Enabled(s, i, ch) && Fetch(s.threads[i].pc).WakeAll? && Matched(s.pool, s.threads) && PoolInv(s)
    ensures Matched(Fire(cfg, s, i, ch).pool, Fire(cfg, s, i, ch).threads)
  {
    var t, c := s.threads[i], Fetch(s.threads[i].pc).c;
    if c == ConnC {
      assert t.pc == Signal(MonBcastC);
    } else {
      var us := WakeThreads(s.threads, c);
      OtherBroadcast(s.threads, c);
      MoveBalances(s.pool, t);
      MatchedUpdate(s.pool, us, i, s.pool, t.(pc := Fetch(t.pc).next));
    }
  }

  /** A step that wakes nobody. */
  lemma QuietMatches(cfg: Config, s: State, i: nat, ch: Choice)
    requires Enabled(s, i, ch) && Knows(s.pool, s.threads[i]) && Matched(s.pool, s.threads)
    requires !Fetch(s.threads[i].pc).WakeOne? && !Fetch(s.threads[i].pc).WakeAll?
    requires !Fire(cfg, s, i, ch).threads[i].pc.Crashed?
    ensures Matched(Fire(cfg, s, i, ch).pool, Fire(cfg, s, i, ch).threads)
  {
    var s', t := Fire(cfg, s, i, ch), s.threads[i];
    StepSelf(cfg, s, i, ch);
    assert s'.threads == s.threads[i := s'.threads[i]];
    if Fetch(t.pc).FileOp? {
      FileBalances(cfg, s.sh, s.pool, t);
    } else if Fetch(t.pc).PoolOp? || Fetch(t.pc).FromOutside? {
      PoolBalances(s.pool, t, ch);
    } else if !Fetch(t.pc).Receiving? {
      MoveBalances(s.pool, t);
    }
    MatchedUpdate(s.pool, s.threads, i, s'.pool, s'.threads[i]);
  }

  lemma OnlyMainSignals(pc: PC)
    ensures Fetch(pc).WakeOne? ==> pc == Main(SignalConn)
  {
  }

  lemma MatchedStep(cfg: Config, s: State, i: nat, ch: Choice)
    requires Inv(cfg, s) && Enabled(s, i, ch) && Matched(s.pool, s.threads)
    ensures Matched(Fire(cfg, s, i, ch).pool, Fire(cfg, s, i, ch).threads)
  {
    OnlyMainSignals(s.threads[i].pc);
    if Fetch(s.threads[i].pc).WakeOne? {
      SignalMatches(cfg, s, i, ch);
    } else if Fetch(s.threads[i].pc).WakeAll? {
      BroadcastMatches(cfg, s, i, ch);
    } else {
      EachKnows(s, i);
      SelfDoesNotCrash(cfg, s, i, ch);
      QuietMatches(cfg, s, i, ch);
    }
  }

  lemma MatchedMove(cfg: Config, s: State, m: Move, s': State)
    requires Inv(cfg, s) && IsStep(cfg, s, m, s') && Matched(s.pool, s.threads)
    ensures Matched(s'.pool, s'.threads)
  {
    MatchedStep(cfg, s, m.who, m.ch);
  }

  lemma MatchedNext(cfg: Config, tr: seq<State>, mv: seq<Move>, k: nat)
    requires IsRun(cfg, tr, mv) && k < |mv| && Matched(tr[k].pool, tr[k].threads)
    ensures Matched(tr[k + 1].pool, tr[k + 1].threads)
  {
    var s, m, s' := tr[k], mv[k], tr[k + 1];
    assert Inv(cfg, s) && IsStep(cfg, s, m, s') by { RunStep(cfg, tr, mv, k); }
    MatchedMove(cfg, s, m, s');
  }

  lemma {:induction false} NobodyServesYet(s: State, n: nat)
    requires Init(s) && n <= |s.threads|
    ensures Number(Serving, s.threads, n) == 0
  {
    if n > 0 {
      NobodyServesYet(s, n - 1);
    }
  }

  lemma {:induction false} RunsStayMatched(cfg: Config, tr: seq<State>, mv: seq<Move>, k: nat)
    requires IsRun(cfg, tr, mv) && k < |tr|
    ensures Matched(tr[k].pool, tr[k].threads)
  {
    if k == 0 {
      NobodyServesYet(tr[0], |tr[0].threads|);
    } else {
      RunsStayMatched(cfg, tr, mv, k - 1);
      MatchedNext(cfg, tr, mv, k - 1);
    }
  }

  /** No connection is forgotten: until a signal comes, whenever a worker waits for a connection, the queue
      holds no more of them than there are threads that will look at it before they sleep, or are about
      to wake one that will. */
  lemma NoForgottenConnection(cfg: Config, tr: seq<State>, mv: seq<Move>, k: nat, w: nat)
    requires IsRun(cfg, tr, mv) && k < |tr| && w < |tr[k].threads| && WaitsForConn(tr[k].threads[w].pc)
    requires !Flagged(tr[k].pool)
    ensures |tr[k].pool.conns| <= Number(Heading, tr[k].threads, |tr[k].threads|)
    ensures tr[k].pool.conns != [] ==> exists j :: 0 <= j < |tr[k].threads| && Heads(tr[k].threads[j].pc)
  {
    RunsStayMatched(cfg, tr, mv, k);
    if tr[k].pool.conns != [] {
      OneIsThere(Heading, tr[k].threads, |tr[k].threads|);
    }
  }

  /** Until a signal comes, the counter the log reports is the number of workers that have counted their
      connection in and not out. */
  lemma CounterIsExact(cfg: Config, tr: seq<State>, mv: seq<Move>, k: nat)
    requires IsRun(cfg, tr, mv) && k < |tr| && !Flagged(tr[k].pool)
    ensures tr[k].pool.connections == Number(Serving, tr[k].threads, |tr[k].threads|)
  {
    RunsStayMatched(cfg, tr, mv, k);
  }
}
