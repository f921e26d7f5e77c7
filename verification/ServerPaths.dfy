/** Fixed paths through the program: from being woken back to the test for the lock, from reading a request
    to the queue mutex, from a client that has left back to the pool, out of the pool after a signal,
    and the signal thread's announcement. Each of a thread's own steps takes it one point further,
    whatever the others do. And the two flags, told by the signals that set them. */
module ServerPaths {
  import opened Files
  import opened Server
  import opened ServerMutex
  import opened ServerStore
  import opened ServerPool
  import opened ServerRuns
  import opened ServerTheorems
  import opened ServerWakeup
  import opened ServerProgress

  // ----- The two flags -----

  lemma FlagsAfter(pool: Pool, t: Thread, ch: Choice)
    requires Fetch(t.pc).PoolOp? || Fetch(t.pc).FromOutside?
    ensures var pool' := PoolStep(pool, t, ch).0;
            && (pool'.closing <==> pool.closing || (t.pc == Signal(Sigwait) && !ch.hangup))
            && (!pool'.accepting <==> !pool.accepting || (t.pc == Signal(Sigwait) && ch.hangup))
  {
  }

  lemma FlagsMove(cfg: Config, s: State, m: Move, s': State)
    requires IsStep(cfg, s, m, s')
    ensures var t := s.threads[m.who];
            && (s'.pool.closing <==> s.pool.closing || (t.pc == Signal(Sigwait) && !m.ch.hangup))
            && (!s'.pool.accepting <==> !s.pool.accepting || (t.pc == Signal(Sigwait) && m.ch.hangup))
  {
    var t := s.threads[m.who];
    if Fetch(t.pc).PoolOp? || Fetch(t.pc).FromOutside? {
      FlagsAfter(s.pool, t, m.ch);
    }
  }

  /** Step `j` is the arrival of a signal: a hangup, or one of those that end the server. */
  ghost predicate Signalled(tr: seq<State>, mv: seq<Move>, j: nat, hangup: bool) {
    && j < |mv| && j < |tr| && mv[j].who < |tr[j].threads|
    && tr[j].threads[mv[j].who].pc == Signal(Sigwait) && mv[j].ch.hangup == hangup
  }

  ghost predicate SignalledBefore(tr: seq<State>, mv: seq<Move>, k: nat, hangup: bool) {
    exists j :: 0 <= j < k && Signalled(tr, mv, j, hangup)
  }

  lemma SignalledNext(tr: seq<State>, mv: seq<Move>, k: nat, hangup: bool)
    ensures SignalledBefore(tr, mv, k + 1, hangup)
            <==> SignalledBefore(tr, mv, k, hangup) || Signalled(tr, mv, k, hangup)
  {
    if j: nat :| j < k + 1 && Signalled(tr, mv, j, hangup) {
      assert j < k || j == k;
    }
  }

  /** Each flag is set exactly by its own signal: accepting ends with a hangup, and serving with one of the
      other two. */
  lemma {:induction false} FlagsOverRuns(cfg: Config, tr: seq<State>, mv: seq<Move>, k: nat)
    requires IsRun(cfg, tr, mv) && k < |tr|
    ensures tr[k].pool.closing <==> SignalledBefore(tr, mv, k, false)
    ensures !tr[k].pool.accepting <==> SignalledBefore(tr, mv, k, true)
  {
    if k > 0 {
      FlagsOverRuns(cfg, tr, mv, k - 1);
      FlagsNext(cfg, tr, mv, k - 1);
      SignalledNext(tr, mv, k - 1, false);
      SignalledNext(tr, mv, k - 1, true);
    }
  }

  lemma FlagsNext(cfg: Config, tr: seq<State>, mv: seq<Move>, k: nat)
    requires IsRun(cfg, tr, mv) && k < |mv|
    ensures tr[k + 1].pool.closing <==> tr[k].pool.closing || Signalled(tr, mv, k, false)
    ensures !tr[k + 1].pool.accepting <==> !tr[k].pool.accepting || Signalled(tr, mv, k, true)
  {
    assert StepAt(cfg, tr, mv, k);
    FlagsMove(cfg, tr[k], mv[k], tr[k + 1]);
  }

  // ----- Paths -----

  datatype Way = Retest | TakeUp | BackToPool | Leave | ForcedLeave | Announce

  /** Own steps to the end of the way, or -1 off it. */
  function Away(way: Way, pc: PC): int {
    match way
    case Retest => AwayFromTest(pc)
    case TakeUp =>
      if pc == Req(WantQ) then 0
      else if pc.Logging? && pc.at == BeforeQueue
      then (match pc.line case LogWant => 3 case LogRead => 2 case LogRel => 1) else -1
    case BackToPool =>
      if !pc.Conn? then -1
      else (match pc.c case WantSub => 3 case DoSub => 2 case RelSub => 1 case WantConn => 0 case _ => -1)
    case Leave =>
      if pc.Conn? then AwayFromExit(pc.c)
      else if pc == Main(MainLoop) then 1
      else if pc == Main(MainDone) then 0
      else -1
    case ForcedLeave => if pc.Conn? then AwayFromForcedExit(pc.c) else -1
    case Announce => if pc.Signal? then AwayFromAnnounced(pc.g) else -1
  }

  function AwayFromTest(pc: PC): int {
    match pc
    case Locking(l) =>
      (match l case WokenL => 5 case DropL => 4 case WantL => 1 case Try => 0 case _ => -1)
    case Req(r) => (match r case WantQ => 3 case Dispatch => 2 case _ => -1)
    case _ => -1
  }

  function AwayFromExit(c: ConnPC): int {
    match c
    case WantConn => 4 case WokenConn => 4 case TestConn => 3 case FlagTest => 2 case ExitRel => 1
    case AfterConn => 1 case Exited => 0 case _ => -1
  }

  /** A worker that still has a connection gives it up. */
  function AwayFromForcedExit(c: ConnPC): int {
    match c
    case PopConn => 8 case RelConn => 7 case WantAdd => 6 case DoAdd => 5 case RelAdd => 4 case FdTest => 3
    case ReadReq => 2 case _ => AwayFromExit(c)
  }

  function AwayFromAnnounced(g: SignalPC): int {
    match g
    case MonWantC => 6 case MonBcastC => 5 case MonRelC => 4 case MonWantQ => 3 case MonBcastQ => 2
    case MonRelQ => 1 case MonDone => 0 case Sigwait => -1
  }

  /** What keeps a thread on its way. */
  ghost predicate Bound(way: Way, pool: Pool, t: Thread) {
    match way
    case Retest => t.req.Open? || t.req.Lock?
    case Leave => Flagged(pool)
    case ForcedLeave => pool.closing
    case _ => true
  }

  ghost predicate OnWay(way: Way, pool: Pool, t: Thread) {
    Away(way, t.pc) >= 0 && Bound(way, pool, t)
  }

  /** One point further. */
  ghost predicate Further(way: Way, t: Thread, t': Thread) {
    SameRequest(t, t') && Away(way, t'.pc) == Away(way, t.pc) - 1
  }

  lemma WayActs(way: Way, t: Thread)
    requires Away(way, t.pc) >= 0
    ensures !Fetch(t.pc).Asleep? && !Fetch(t.pc).Receiving?
    ensures Fetch(t.pc).Halt? ==> Away(way, t.pc) == 0
    ensures Fetch(t.pc).FileOp? && Away(way, t.pc) > 0 ==> way == Retest && t.pc == Req(Dispatch)
  {
  }

  lemma MoveFurther(way: Way, t: Thread)
    requires Away(way, t.pc) > 0 && Moves(Fetch(t.pc))
    ensures Further(way, t, t.(pc := Fetch(t.pc).next))
  {
  }

  lemma PoolFurther(way: Way, pool: Pool, t: Thread, ch: Choice)
    requires OnWay(way, pool, t) && Away(way, t.pc) > 0 && Knows(pool, t)
    requires Fetch(t.pc).PoolOp? || Fetch(t.pc).FromOutside?
    ensures Further(way, t, PoolStep(pool, t, ch).1)
  {
    match way
    case Leave => LeaveFurther(pool, t, ch);
    case ForcedLeave => ForcedFurther(pool, t, ch);
    case _ => QuietFurther(way, pool, t, ch);
  }

  lemma LeaveFurther(pool: Pool, t: Thread, ch: Choice)
    requires Flagged(pool) && Away(Leave, t.pc) > 0 && Fetch(t.pc).PoolOp?
    ensures Further(Leave, t, PoolStep(pool, t, ch).1)
  {
  }

  lemma ForcedFurther(pool: Pool, t: Thread, ch: Choice)
    requires pool.closing && Away(ForcedLeave, t.pc) > 0 && Knows(pool, t)
    requires Fetch(t.pc).PoolOp? || Fetch(t.pc).FromOutside?
    ensures Further(ForcedLeave, t, PoolStep(pool, t, ch).1)
  {
  }

  lemma QuietFurther(way: Way, pool: Pool, t: Thread, ch: Choice)
    requires way != Leave && way != ForcedLeave && Away(way, t.pc) > 0
    requires Fetch(t.pc).PoolOp? || Fetch(t.pc).FromOutside?
    ensures Further(way, t, PoolStep(pool, t, ch).1)
  {
  }

  lemma FileFurther(cfg: Config, sh: Shared, t: Thread)
    requires t.pc == Req(Dispatch) && (t.req.Open? || t.req.Lock?)
    ensures Further(Retest, t, FileStep(cfg, sh, t).1)
  {
  }

  lemma WayStep(cfg: Config, s: State, i: nat, ch: Choice, way: Way)
    requires Enabled(s, i, ch) && Knows(s.pool, s.threads[i]) && OnWay(way, s.pool, s.threads[i])
    requires Away(way, s.threads[i].pc) > 0
    ensures Further(way, s.threads[i], Fire(cfg, s, i, ch).threads[i])
  {
    var t := s.threads[i];
    WayActs(way, t);
    StepSelf(cfg, s, i, ch);
    if Fetch(t.pc).FileOp? {
      FileFurther(cfg, s.sh, t);
    } else if Fetch(t.pc).PoolOp? || Fetch(t.pc).FromOutside? {
      PoolFurther(way, s.pool, t, ch);
    } else {
      MoveFurther(way, t);
    }
  }

  lemma BoundLasts(cfg: Config, s: State, m: Move, s': State, way: Way, t: Thread, t': Thread)
    requires IsStep(cfg, s, m, s') && Bound(way, s.pool, t) && t'.req == t.req
    ensures Bound(way, s'.pool, t')
  {
    FlagsMove(cfg, s, m, s');
  }

  /** Along its way a thread moves by its own steps only. */
  lemma WayMove(cfg: Config, s: State, m: Move, s': State, w: nat, way: Way)
    requires PoolInv(s) && Exclusive(s) && IsStep(cfg, s, m, s') && w < |s.threads|
    requires OnWay(way, s.pool, s.threads[w]) && (m.who == w ==> Away(way, s.threads[w].pc) > 0)
    ensures w < |s'.threads| && OnWay(way, s'.pool, s'.threads[w])
    ensures if m.who == w then Further(way, s.threads[w], s'.threads[w]) else s'.threads[w] == s.threads[w]
  {
    WayActs(way, s.threads[w]);
    if m.who == w {
      EachKnows(s, w);
      WayStep(cfg, s, w, m.ch, way);
    } else {
      StepFrame(cfg, s, m.who, m.ch, w);
    }
    BoundLasts(cfg, s, m, s', way, s.threads[w], s'.threads[w]);
  }

  lemma WayAt(cfg: Config, tr: seq<State>, mv: seq<Move>, k: nat, w: nat, way: Way)
    requires IsRun(cfg, tr, mv) && k < |mv| && w < |tr[k].threads|
    requires OnWay(way, tr[k].pool, tr[k].threads[w]) && (mv[k].who == w ==> Away(way, tr[k].threads[w].pc) > 0)
    ensures w < |tr[k + 1].threads| && OnWay(way, tr[k + 1].pool, tr[k + 1].threads[w])
    ensures if mv[k].who == w then Further(way, tr[k].threads[w], tr[k + 1].threads[w])
            else tr[k + 1].threads[w] == tr[k].threads[w]
  {
    var s, m, s' := tr[k], mv[k], tr[k + 1];
    assert Inv(cfg, s) && IsStep(cfg, s, m, s') by { RunStep(cfg, tr, mv, k); }
    WayMove(cfg, s, m, s', w, way);
  }

  /** Thread `t` is `steps` points further, at `t'`. */
  ghost predicate Advanced(way: Way, pool: Pool, t: Thread, t': Thread, steps: nat) {
    SameRequest(t, t') && OnWay(way, pool, t') && Away(way, t'.pc) == Away(way, t.pc) - steps
  }

  lemma {:induction false} OwnStepsLead(cfg: Config, tr: seq<State>, mv: seq<Move>, a: nat, b: nat, w: nat, way: Way)
    requires IsRun(cfg, tr, mv) && a <= b < |tr| && w < |tr[a].threads|
    requires OnWay(way, tr[a].pool, tr[a].threads[w]) && OwnSteps(mv, a, b, w) <= Away(way, tr[a].threads[w].pc)
    ensures w < |tr[b].threads| && Advanced(way, tr[b].pool, tr[a].threads[w], tr[b].threads[w], OwnSteps(mv, a, b, w))
    decreases b
  {
    if a != b {
      OwnStepsLead(cfg, tr, mv, a, b - 1, w, way);
      WayAt(cfg, tr, mv, b - 1, w, way);
    }
  }

  // ----- Being woken means testing again -----

  /** A thread that waits for a file lock, or has been woken from it, asks for one. */
  ghost predicate WaiterAsks(t: Thread) {
    Waits(t.pc) || t.pc == Locking(WokenL) || t.pc == Locking(DropL) ==> t.req.Open? || t.req.Lock?
  }

  lemma WaiterMoves(pool: Pool, t: Thread, ch: Choice)
    requires WaiterAsks(t)
    ensures Moves(Fetch(t.pc)) ==> WaiterAsks(t.(pc := Fetch(t.pc).next))
    ensures Fetch(t.pc).PoolOp? || Fetch(t.pc).FromOutside? ==> WaiterAsks(PoolStep(pool, t, ch).1)
    ensures Fetch(t.pc).Asleep? ==> WaiterAsks(Wake(t))
  {
  }

  lemma WaiterStep(cfg: Config, s: State, i: nat, ch: Choice, w: nat)
    requires Exclusive(s) && TableInv(cfg, s) && Enabled(s, i, ch) && w < |s.threads| && WaiterAsks(s.threads[w])
    ensures WaiterAsks(Fire(cfg, s, i, ch).threads[w])
  {
    var t := s.threads[w];
    WaiterMoves(s.pool, t, ch);
    if w != i {
      StepFrame(cfg, s, i, ch, w);
    } else {
      StepSelf(cfg, s, i, ch);
      if Fetch(t.pc).FileOp? {
        HolderAsserts(cfg, s, i);
        StartsWaiting(cfg, s.sh, t);
        FileStaysBusy(cfg, s.sh, t);
      }
    }
  }

  lemma WaiterMove(cfg: Config, s: State, m: Move, s': State, w: nat)
    requires Inv(cfg, s) && IsStep(cfg, s, m, s') && w < |s.threads| && WaiterAsks(s.threads[w])
    ensures w < |s'.threads| && WaiterAsks(s'.threads[w])
  {
    WaiterStep(cfg, s, m.who, m.ch, w);
  }

  lemma WaiterNext(cfg: Config, tr: seq<State>, mv: seq<Move>, k: nat, w: nat)
    requires IsRun(cfg, tr, mv) && k < |mv| && w < |tr[k].threads| && WaiterAsks(tr[k].threads[w])
    ensures w < |tr[k + 1].threads| && WaiterAsks(tr[k + 1].threads[w])
  {
    var s, m, s' := tr[k], mv[k], tr[k + 1];
    assert Inv(cfg, s) && IsStep(cfg, s, m, s') by { RunStep(cfg, tr, mv, k); }
    WaiterMove(cfg, s, m, s', w);
  }

  lemma {:induction false} WaitersAsk(cfg: Config, tr: seq<State>, mv: seq<Move>, k: nat, w: nat)
    requires IsRun(cfg, tr, mv) && k < |tr| && w < |tr[k].threads|
    ensures WaiterAsks(tr[k].threads[w])
    decreases k
  {
    if k > 0 {
      SameThreads(cfg, tr, mv, k - 1);
      WaitersAsk(cfg, tr, mv, k - 1, w);
      WaiterNext(cfg, tr, mv, k - 1, w);
    }
  }

  /** A worker woken from its wait for a file lock tests again, with the same request, by five steps of its
      own, whatever the others do. */
  lemma WokenTestsAgain(cfg: Config, tr: seq<State>, mv: seq<Move>, a: nat, b: nat, w: nat)
    requires IsRun(cfg, tr, mv) && a <= b < |tr| && w < |tr[a].threads| && tr[a].threads[w].pc == Locking(WokenL)
    requires OwnSteps(mv, a, b, w) <= 5
    ensures w < |tr[b].threads| && SameRequest(tr[a].threads[w], tr[b].threads[w])
    ensures AwayFromTest(tr[b].threads[w].pc) == 5 - OwnSteps(mv, a, b, w)
    ensures OwnSteps(mv, a, b, w) == 5 ==> tr[b].threads[w].pc == Locking(Try)
  {
    WaitersAsk(cfg, tr, mv, a, w);
    OwnStepsLead(cfg, tr, mv, a, b, w, Retest);
    OnlyTry(tr[b].threads[w].pc);
  }

  lemma OnlyTry(pc: PC)
    ensures AwayFromTest(pc) == 0 ==> pc == Locking(Try)
  {
  }

  /** `t` has tested on table `files` and is now `t'`: with its final status, on the way to the answer, or
      about to wait. */
  ghost predicate Tested(cfg: Config, files: Store, t: Thread, t': Thread) {
    && (t.req.Open? || t.req.Lock?) && SameRequest(t, t')
    && t'.status == Outcome(cfg, files, t.client, t.req).status
    && (!Blocked(files, t.req.path, t.client) ==> t'.status != WAIT)
    && (t'.status != WAIT ==> Busy(t'.pc) && ToAnswer(t') <= 9)
    && (t'.status == WAIT ==> t'.pc == Locking(DropQ))
  }

  lemma TestThread(cfg: Config, sh: Shared, t: Thread)
    requires Assertion(cfg, sh, t) && t.pc == Locking(Try)
    ensures Tested(cfg, sh.files, t, FileStep(cfg, sh, t).1)
  {
    BlockedIffWait(cfg, sh.files, t.client, t.req);
  }

  lemma TestMove(cfg: Config, s: State, m: Move, s': State)
    requires IsStep(cfg, s, m, s') && s.threads[m.who].pc == Locking(Try) && Assertion(cfg, s.sh, s.threads[m.who])
    ensures Tested(cfg, s.sh.files, s.threads[m.who], s'.threads[m.who])
  {
    StepSelf(cfg, s, m.who, m.ch);
    TestThread(cfg, s.sh, s.threads[m.who]);
  }

  /** The test decides: on a table that does not make the client wait, the thread gets its final status, that
      of the request run alone on this table, and is at most nine steps of its own from the answer. */
  lemma TestDecides(cfg: Config, tr: seq<State>, mv: seq<Move>, k: nat, w: nat)
    requires IsRun(cfg, tr, mv) && k < |mv| && mv[k].who == w < |tr[k].threads| && tr[k].threads[w].pc == Locking(Try)
    ensures w < |tr[k + 1].threads| && Tested(cfg, tr[k].sh.files, tr[k].threads[w], tr[k + 1].threads[w])
  {
    var s, m, s' := tr[k], mv[k], tr[k + 1];
    assert Inv(cfg, s) && IsStep(cfg, s, m, s') by { RunStep(cfg, tr, mv, k); }
    HolderAsserts(cfg, s, w);
    TestMove(cfg, s, m, s');
  }

  // ----- Taking up requests -----

  /** What reading from the client leads to, when serving is allowed or not. */
  ghost predicate HasRead(ch: Choice, closing: bool, t: Thread, t': Thread) {
    if ch.eof || closing then SameRequest(t, t') && t'.pc == Conn(AfterConn)
    else
      && t'.client == ch.client && t'.req == ch.req && t'.unset == ch.unset && t'.fd == t.fd && t'.slot == t.slot
      && Busy(t'.pc) && Away(TakeUp, t'.pc) == if IsSection(ch.req) || ch.req.Read? then 0 else 3
  }

  lemma ReadMove(cfg: Config, s: State, m: Move, s': State)
    requires IsStep(cfg, s, m, s') && s.threads[m.who].pc == Conn(ReadReq)
    ensures HasRead(m.ch, s.pool.closing, s.threads[m.who], s'.threads[m.who])
  {
    StepSelf(cfg, s, m.who, m.ch);
  }

  lemma ReadAt(cfg: Config, tr: seq<State>, mv: seq<Move>, k: nat, w: nat)
    requires IsRun(cfg, tr, mv) && k < |mv| && mv[k].who == w < |tr[k].threads| && tr[k].threads[w].pc == Conn(ReadReq)
    ensures w < |tr[k + 1].threads| && HasRead(mv[k].ch, tr[k].pool.closing, tr[k].threads[w], tr[k + 1].threads[w])
  {
    SameThreads(cfg, tr, mv, k);
    assert StepAt(cfg, tr, mv, k);
    ReadMove(cfg, tr[k], mv[k], tr[k + 1]);
  }

  /** Every request is taken up, whatever it asks for, unless the stream has ended or the server has been told
      to end: the thread then has exactly this client, request and unset variable, and three steps of its
      own, or none for a read, a write or an append, bring it to the queue mutex. A hangup does not keep it
      from this. */
  lemma RequestIsTakenUp(cfg: Config, tr: seq<State>, mv: seq<Move>, k: nat, b: nat, w: nat)
    requires IsRun(cfg, tr, mv) && k < b < |tr| && mv[k].who == w < |tr[k].threads|
             && tr[k].threads[w].pc == Conn(ReadReq)
    requires !mv[k].ch.eof && !SignalledBefore(tr, mv, k, false)
    requires var req := mv[k].ch.req; OwnSteps(mv, k + 1, b, w) == if IsSection(req) || req.Read? then 0 else 3
    ensures w < |tr[b].threads|
    ensures var t, ch := tr[b].threads[w], mv[k].ch;
            t.pc == Req(WantQ) && t.client == ch.client && t.req == ch.req && t.unset == ch.unset
  {
    FlagsOverRuns(cfg, tr, mv, k);
    ReadAt(cfg, tr, mv, k, w);
    OwnStepsLead(cfg, tr, mv, k + 1, b, w, TakeUp);
    OnlyQueue(tr[b].threads[w].pc);
  }

  lemma OnlyQueue(pc: PC)
    ensures Away(TakeUp, pc) == 0 ==> pc == Req(WantQ)
  {
  }

  // ----- Coming back to the pool, and leaving it -----

  lemma PartMove(cfg: Config, s: State, m: Move, s': State)
    requires IsStep(cfg, s, m, s') && s.threads[m.who].pc == Conn(AfterConn)
    ensures s'.threads[m.who].pc == if Flagged(s.pool) then Conn(Exited) else Conn(WantSub)
  {
    StepSelf(cfg, s, m.who, m.ch);
  }

  lemma PartAt(cfg: Config, tr: seq<State>, mv: seq<Move>, k: nat, w: nat)
    requires IsRun(cfg, tr, mv) && k < |mv| && mv[k].who == w < |tr[k].threads|
             && tr[k].threads[w].pc == Conn(AfterConn)
    ensures w < |tr[k + 1].threads|
    ensures tr[k + 1].threads[w].pc == if Flagged(tr[k].pool) then Conn(Exited) else Conn(WantSub)
  {
    SameThreads(cfg, tr, mv, k);
    assert StepAt(cfg, tr, mv, k);
    PartMove(cfg, tr[k], mv[k], tr[k + 1]);
  }

  /** As long as no signal has come, a worker whose client has left comes back to the pool, by three more
      steps of its own. */
  lemma WorkerComesBack(cfg: Config, tr: seq<State>, mv: seq<Move>, k: nat, b: nat, w: nat)
    requires IsRun(cfg, tr, mv) && k < b < |tr| && mv[k].who == w < |tr[k].threads|
             && tr[k].threads[w].pc == Conn(AfterConn)
    requires !SignalledBefore(tr, mv, k, false) && !SignalledBefore(tr, mv, k, true) && OwnSteps(mv, k + 1, b, w) == 3
    ensures w < |tr[b].threads| && tr[b].threads[w].pc == Conn(WantConn)
  {
    FlagsOverRuns(cfg, tr, mv, k);
    PartAt(cfg, tr, mv, k, w);
    OwnStepsLead(cfg, tr, mv, k + 1, b, w, BackToPool);
    OnlyPool(tr[b].threads[w].pc);
  }

  lemma OnlyPool(pc: PC)
    ensures Away(BackToPool, pc) == 0 ==> pc == Conn(WantConn)
  {
  }

  lemma OnlyExit(pc: PC)
    ensures Away(Leave, pc) == 0 || Away(ForcedLeave, pc) == 0 ==> pc == Conn(Exited) || pc == Main(MainDone)
  {
  }

  /** After any signal a worker without a connection ends, and so does the main thread at its loop; after a
      signal that ends the server so does every worker that has a connection and is between requests, without
      taking up another one. The number of own steps this takes is that of `Away`, at most eight. */
  lemma SignalEndsThreads(cfg: Config, tr: seq<State>, mv: seq<Move>, a: nat, b: nat, w: nat)
    requires IsRun(cfg, tr, mv) && a <= b < |tr| && w < |tr[a].threads|
    requires SignalledBefore(tr, mv, a, false) || SignalledBefore(tr, mv, a, true)
    ensures w < |tr[b].threads|
    ensures Away(Leave, tr[a].threads[w].pc) == OwnSteps(mv, a, b, w) ==>
              tr[b].threads[w].pc == Conn(Exited) || tr[b].threads[w].pc == Main(MainDone)
    ensures SignalledBefore(tr, mv, a, false) && Away(ForcedLeave, tr[a].threads[w].pc) == OwnSteps(mv, a, b, w) ==>
              tr[b].threads[w].pc == Conn(Exited) && SameRequest(tr[a].threads[w], tr[b].threads[w])
    ensures Away(Leave, tr[a].threads[w].pc) <= 4 && Away(ForcedLeave, tr[a].threads[w].pc) <= 8
  {
    FlagsOverRuns(cfg, tr, mv, a);
    ThreadsStay(cfg, tr, mv, a, b);
    if Away(Leave, tr[a].threads[w].pc) == OwnSteps(mv, a, b, w) {
      OwnStepsLead(cfg, tr, mv, a, b, w, Leave);
      OnlyExit(tr[b].threads[w].pc);
    }
    if SignalledBefore(tr, mv, a, false) && Away(ForcedLeave, tr[a].threads[w].pc) == OwnSteps(mv, a, b, w) {
      OwnStepsLead(cfg, tr, mv, a, b, w, ForcedLeave);
      OnlyExit(tr[b].threads[w].pc);
    }
  }

  lemma {:induction false} ThreadsStay(cfg: Config, tr: seq<State>, mv: seq<Move>, a: nat, b: nat)
    requires IsRun(cfg, tr, mv) && a <= b < |tr|
    ensures |tr[b].threads| == |tr[a].threads|
    decreases b
  {
    if a != b {
      ThreadsStay(cfg, tr, mv, a, b - 1);
      SameThreads(cfg, tr, mv, b - 1);
    }
  }

  lemma SignalMove(cfg: Config, s: State, m: Move, s': State)
    requires IsStep(cfg, s, m, s') && s.threads[m.who].pc == Signal(Sigwait)
    ensures s'.threads[m.who].pc == Signal(MonWantC)
  {
    StepSelf(cfg, s, m.who, m.ch);
  }

  /** A signal is announced: six steps after its arrival the signal thread is through, and from its broadcast
      on nobody waits for a connection. */
  lemma SignalIsAnnounced(cfg: Config, tr: seq<State>, mv: seq<Move>, k: nat, b: nat, hangup: bool, w: nat)
    requires IsRun(cfg, tr, mv) && k < b < |tr| && Signalled(tr, mv, k, hangup)
             && OwnSteps(mv, k + 1, b, mv[k].who) == 6
    ensures mv[k].who < |tr[b].threads| && tr[b].threads[mv[k].who].pc == Signal(MonDone)
    ensures w < |tr[b].threads| ==> !WaitsForConn(tr[b].threads[w].pc)
  {
    var i := mv[k].who;
    SameThreads(cfg, tr, mv, k);
    assert StepAt(cfg, tr, mv, k);
    SignalMove(cfg, tr[k], mv[k], tr[k + 1]);
    OwnStepsLead(cfg, tr, mv, k + 1, b, i, Announce);
    OnlyAnnounced(tr[b].threads[i].pc);
    if w < |tr[b].threads| {
      ShutdownReachesThePool(cfg, tr, mv, b, i, w);
    }
  }

  lemma OnlyAnnounced(pc: PC)
    ensures Away(Announce, pc) == 0 ==> pc == Signal(MonDone)
  {
  }

  // ----- Lines of the log -----

  /** The thread has written its line at that place. */
  predicate HasLogged(t: Thread, at: LogSite) {
    t.pc == Logging(at, LogRel)
  }

  /** Whoever comes to these points has written its line, or did so before. */
  ghost predicate LoggedBefore(t: Thread, t': Thread) {
    && (t'.pc == Section(Evicting) ==> HasLogged(t, VictimSent))
    && (t'.pc == Section(CheckOwner) ==>
          HasLogged(t, RoomFound) || t.pc == Section(Evicting) || t.pc == Section(IncRel))
    && (t'.pc == Req(WantQ) && LogsFirst(t'.req) ==> HasLogged(t, BeforeQueue) || t.pc == Locking(DropL))
  }

  lemma MoveLogged(t: Thread)
    requires Moves(Fetch(t.pc))
    ensures LoggedBefore(t, t.(pc := Fetch(t.pc).next))
  {
  }

  lemma PoolLogged(pool: Pool, t: Thread, ch: Choice)
    requires Fetch(t.pc).PoolOp? || Fetch(t.pc).FromOutside?
    ensures LoggedBefore(t, PoolStep(pool, t, ch).1)
  {
  }

  lemma FileLogged(cfg: Config, sh: Shared, t: Thread)
    requires Fetch(t.pc).FileOp?
    ensures LoggedBefore(t, FileStep(cfg, sh, t).1)
  {
    match t.pc
    case Req(r) => ReqStaysBusy(cfg, sh, t, r);
    case Locking(l) => LockStaysBusy(cfg, sh, t, l);
    case Section(s) =>
    case Marking(k, m) =>
  }

  lemma StepLogged(cfg: Config, s: State, m: Move, s': State)
    requires IsStep(cfg, s, m, s')
    ensures LoggedBefore(s.threads[m.who], s'.threads[m.who])
  {
    var t := s.threads[m.who];
    StepSelf(cfg, s, m.who, m.ch);
    if Fetch(t.pc).FileOp? {
      FileLogged(cfg, s.sh, t);
    } else if Fetch(t.pc).PoolOp? || Fetch(t.pc).FromOutside? {
      PoolLogged(s.pool, t, m.ch);
    } else if !Fetch(t.pc).Receiving? {
      MoveLogged(t);
    }
  }

  /** Every request writes its line before what it tells of, in any state: a victim goes after the line that
      names it, the lock of a write or append is tested after its line, and all requests but these and reads
      have theirs before they take the queue mutex for the first time. A read has one exactly if the file is
      open and empty. */
  lemma LinesAreWritten(cfg: Config, s: State, m: Move, s': State, k: int)
    requires IsStep(cfg, s, m, s')
    ensures LoggedBefore(s.threads[m.who], s'.threads[m.who])
    ensures var t := s.threads[m.who];
            t.pc == Req(Simple) && t.req.Read? && Names(s.sh.files, k, t.req.path) ==>
              s'.threads[m.who].pc ==
              if s.sh.files[k].open && s.sh.files[k].bytes == [] then Logging(EmptyRead, LogWant) else Req(Reply)
  {
    var t := s.threads[m.who];
    StepLogged(cfg, s, m, s');
    if t.pc == Req(Simple) && t.req.Read? && Names(s.sh.files, k, t.req.path) {
      StepSelf(cfg, s, m.who, m.ch);
      ReadAnswers(s.sh.files, t.req.path, k);
    }
  }
}
