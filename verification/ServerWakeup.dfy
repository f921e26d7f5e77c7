/** Waiting for a file lock: what a sleeping worker can rely on, exactly when it is left behind,
    and what shutdown does for it. */
module ServerWakeup {
  import opened Files
  import opened EventLog
  import opened LogTheorems
  import opened Operations
  import opened Server
  import opened ServerMutex
  import opened ServerStore
  import opened ServerRuns
  import opened ServerTheorems

  /** The thread has decided to wait for the lock and has not been woken since. */
  predicate Waits(pc: PC) {
    pc == Locking(DropQ) || pc == Locking(WaitL) || pc == Locking(AsleepL)
  }

  /** The thread has unlocked a file and is about to broadcast. */
  predicate Pends(pc: PC) {
    pc == Locking(WantLB) || pc == Locking(BcastL)
  }

  /** Some thread has unlocked a file, holds the queue mutex still, and is about to broadcast. */
  ghost predicate BroadcastPending(s: State) {
    QueueM in s.holder && s.holder[QueueM] < |s.threads| && Pends(s.threads[s.holder[QueueM]].pc)
  }

  ghost predicate HeldByOther(files: Store, p: Path, c: ClientId) {
    Has(files, p) && Get(files, p).owner != 0 && Get(files, p).owner != c
  }

  /** Testing again would make the client wait again. */
  ghost predicate Blocked(files: Store, p: Path, c: ClientId) {
    HeldByOther(files, p, c) && Get(files, p).open
  }

  lemma BlockedIffWait(cfg: Config, s: Store, c: ClientId, req: Request)
    requires req.Open? || req.Lock?
    ensures Outcome(cfg, s, c, req).status == WAIT ==> Blocked(s, req.path, c)
    ensures req.Lock? ==> (Outcome(cfg, s, c, req).status == WAIT <==> Blocked(s, req.path, c))
    ensures req.Open? ==> (Outcome(cfg, s, c, req).status == WAIT <==>
                            Blocked(s, req.path, c) && req.lock && !req.create)
  {
  }

  /** Only a test that found the file held by another client puts a thread to waiting. */
  lemma StartsWaiting(cfg: Config, sh: Shared, t: Thread)
    requires Fetch(t.pc).FileOp? && Assertion(cfg, sh, t)
    ensures var (sh', t') := FileStep(cfg, sh, t);
            Waits(t'.pc) ==> (t'.req.Open? || t'.req.Lock?) && Blocked(sh'.files, t'.req.path, t'.client)
  {
    match t.pc
    case Req(r) => ReqNeverWaits(cfg, sh, t, r);
    case Locking(l) => LockStartsWaiting(cfg, sh, t, l);
    case Section(s) =>
    case Marking(k, m) =>
  }

  lemma ReqNeverWaits(cfg: Config, sh: Shared, t: Thread, r: ReqPC)
    requires FetchReq(r).FileOp?
    ensures !Waits(ReqStep(cfg, sh, t, r).1.pc)
  {
  }

  lemma LockStartsWaiting(cfg: Config, sh: Shared, t: Thread, l: LockPC)
    requires FetchLocking(l).FileOp? && LockAssertion(cfg, sh, t, l)
    ensures var (sh', t') := LockStep(cfg, sh, t, l);
            Waits(t'.pc) ==> (t'.req.Open? || t'.req.Lock?) && Blocked(sh'.files, t'.req.path, t'.client)
  {
    if l.Try? {
      BlockedIffWait(cfg, sh.files, t.client, t.req);
    }
  }

  lemma WaitingMoves(pool: Pool, t: Thread, ch: Choice)
    ensures Fetch(t.pc).PoolOp? || Fetch(t.pc).FromOutside? ==> !Waits(PoolStep(pool, t, ch).1.pc)
    ensures Moves(Fetch(t.pc)) && Waits(Fetch(t.pc).next)
            ==> Waits(t.pc)
  {
  }

  /** A thread that waits after another thread's step waited before it, with the same request. */
  lemma OtherWaitsBefore(cfg: Config, s: State, i: nat, ch: Choice, w: nat)
    requires Enabled(s, i, ch) && w < |s.threads| && w != i && Waits(Fire(cfg, s, i, ch).threads[w].pc)
    ensures Fire(cfg, s, i, ch).threads[w] == s.threads[w]
  {
    StepFrame(cfg, s, i, ch, w);
  }

  /** A thread that waits after its own step waited before it, or has just seen its file held by
      another client. */
  lemma SelfWaitsBefore(cfg: Config, s: State, i: nat, ch: Choice)
    requires Exclusive(s) && TableInv(cfg, s) && Enabled(s, i, ch)
    requires Waits(Fire(cfg, s, i, ch).threads[i].pc)
    ensures var s' := Fire(cfg, s, i, ch);
            var t' := s'.threads[i];
            || (Waits(s.threads[i].pc) && t' == s.threads[i].(pc := t'.pc) && s'.sh == s.sh)
            || ((t'.req.Open? || t'.req.Lock?) && Blocked(s'.sh.files, t'.req.path, t'.client))
  {
    StepSelf(cfg, s, i, ch);
    TableFrame(cfg, s, i, ch);
    FileOpsHoldQueue(s.threads[i].pc);
    if Fetch(s.threads[i].pc).FileOp? {
      StartsWaiting(cfg, s.sh, s.threads[i]);
    } else {
      WaitingMoves(s.pool, s.threads[i], ch);
    }
  }

  /** The unlocker's broadcast leaves nobody waiting: sleepers are woken, and nobody is on the way
      to sleep, because that takes the lock mutex the broadcaster holds. */
  lemma BroadcastWakesAll(cfg: Config, s: State, i: nat, ch: Choice, w: nat)
    requires Exclusive(s) && Enabled(s, i, ch) && w < |s.threads| && s.threads[i].pc == Locking(BcastL)
    ensures !Waits(Fire(cfg, s, i, ch).threads[w].pc)
  {
    assert Holds(s.threads[i].pc, LockM);
    if w != i {
      OneHolder(s, i, w, LockM);
      assert s.threads[w].pc != Locking(DropQ) && s.threads[w].pc != Locking(WaitL);
      WokenBy(cfg, s, i, ch, w);
    }
  }

  lemma WokenBy(cfg: Config, s: State, i: nat, ch: Choice, w: nat)
    requires Enabled(s, i, ch) && w < |s.threads| && w != i && s.threads[i].pc == Locking(BcastL)
    ensures Fire(cfg, s, i, ch).threads[w]
            == if s.threads[w].pc == Locking(AsleepL) then s.threads[w].(pc := Locking(WokenL)) else s.threads[w]
  {
    if s.threads[w].pc != Locking(AsleepL) {
      assert !AsleepOn(s.threads[w], LockC);
    }
  }

  lemma PendingMoves(cfg: Config, s: State, i: nat, ch: Choice)
    requires Enabled(s, i, ch) && s.threads[i].pc == Locking(WantLB)
    ensures Fire(cfg, s, i, ch).threads[i].pc == Locking(BcastL) && Fire(cfg, s, i, ch).sh == s.sh
    ensures QueueM in s.holder ==>
              QueueM in Fire(cfg, s, i, ch).holder && Fire(cfg, s, i, ch).holder[QueueM] == s.holder[QueueM]
  {
  }

  /** A pending broadcast stays pending until it is made. */
  lemma PendingStays(cfg: Config, s: State, i: nat, ch: Choice)
    requires Exclusive(s) && NoCrash(s) && Enabled(s, i, ch) && BroadcastPending(s)
             && s.threads[i].pc != Locking(BcastL)
    ensures BroadcastPending(Fire(cfg, s, i, ch)) && Fire(cfg, s, i, ch).sh == s.sh
  {
    if i == s.holder[QueueM] {
      PendingMoves(cfg, s, i, ch);
    } else {
      PendingWaits(cfg, s, i, ch);
    }
  }

  lemma PendingWaits(cfg: Config, s: State, i: nat, ch: Choice)
    requires Exclusive(s) && NoCrash(s) && Enabled(s, i, ch) && BroadcastPending(s) && i != s.holder[QueueM]
    ensures BroadcastPending(Fire(cfg, s, i, ch)) && Fire(cfg, s, i, ch).sh == s.sh
  {
    OthersLeaveSection(cfg, s, i, ch, s.holder[QueueM]);
    OthersLeaveMutex(cfg, s, i, ch, QueueM);
  }

  /** Unlocking leaves a broadcast pending. */
  lemma UnlockLeavesPending(cfg: Config, sh: Shared, t: Thread, e: Event)
    requires Fetch(t.pc).FileOp? && Assertion(cfg, sh, t)
    requires e.Unlocked? && FileStep(cfg, sh, t).0.log == sh.log + [e]
    ensures FileStep(cfg, sh, t).1.pc == Locking(WantLB)
  {
    assert (sh.log + [e])[|sh.log|] == e;
    match t.pc
    case Req(r) => NoUnlockInSimple(cfg, sh, t, r);
    case Locking(l) => UnlockInLocking(cfg, sh, t, l, e);
    case Section(s) => NoUnlockInSection(cfg, sh, t, s);
    case Marking(k, m) =>
  }

  lemma NoUnlockInSection(cfg: Config, sh: Shared, t: Thread, s: SectionPC)
    requires t.pc == Section(s)
    ensures var log := SectionStep(cfg, sh, t, s).0.log;
            |log| > |sh.log| ==> !log[|sh.log|].Unlocked?
  {
  }

  lemma OnlyUnlockPends(cfg: Config, sh: Shared, t: Thread)
    requires Fetch(t.pc).FileOp? && Assertion(cfg, sh, t)
    ensures FileStep(cfg, sh, t).1.pc == Locking(WantLB) ==> t.pc == Locking(DoUnlock) && t.req.Unlock?
  {
  }

  lemma NoUnlockInSimple(cfg: Config, sh: Shared, t: Thread, r: ReqPC)
    requires t.pc == Req(r) && FetchReq(r).FileOp? && Assertion(cfg, sh, t)
    ensures var log := ReqStep(cfg, sh, t, r).0.log;
            |log| > |sh.log| ==> !log[|sh.log|].Unlocked?
  {
  }

  lemma UnlockInLocking(cfg: Config, sh: Shared, t: Thread, l: LockPC, e: Event)
    requires t.pc == Locking(l) && FetchLocking(l).FileOp? && LockAssertion(cfg, sh, t, l)
    requires e.Unlocked? && LockStep(cfg, sh, t, l).0.log == sh.log + [e]
    ensures LockStep(cfg, sh, t, l).1.pc == Locking(WantLB)
  {
    assert (sh.log + [e])[|sh.log|] == e;
    assert EventOf(cfg, sh.files, t.client, t.req) == Some(e);
  }

  // ----- What a waiting worker can rely on -----

  /** How events other than an unlock change what a waiting client sees of its path. */
  lemma HeldAfterEvent(cfg: Config, s: Store, e: Event, p: Path, c: ClientId)
    requires Distinct(s) && Legal(cfg, s, e) && !e.Unlocked? && HeldByOther(s, p, c)
    ensures Has(Apply(s, e), p) ==> HeldByOther(Apply(s, e), p, c)
    ensures Blocked(s, p, c) && !Blocked(Apply(s, e), p, c) <==>
            Get(s, p).open && (!Has(Apply(s, e), p) || !Get(Apply(s, e), p).open)
  {
    LookAfter(cfg, s, e, p);
  }

  /** How a step by a thread that is not about to broadcast changes it. */
  lemma HeldAfterStep(cfg: Config, s: State, i: nat, ch: Choice, p: Path, c: ClientId)
    requires Inv(cfg, s) && Enabled(s, i, ch) && HeldByOther(s.sh.files, p, c)
    ensures var s' := Fire(cfg, s, i, ch);
            || BroadcastPending(s')
            || (&& (Has(s'.sh.files, p) ==> HeldByOther(s'.sh.files, p, c))
                && (Blocked(s.sh.files, p, c) && !Blocked(s'.sh.files, p, c) <==>
                    Get(s.sh.files, p).open && (!Has(s'.sh.files, p) || !Get(s'.sh.files, p).open)))
  {
    var s' := Fire(cfg, s, i, ch);
    InvStep(cfg, s, i, ch);
    RunsStayWellFormed(cfg, s.sh.log);
    if !(s'.sh.log == s.sh.log && s'.sh.files == s.sh.files) {
      var e: Event :| Legal(cfg, s.sh.files, e) && s'.sh.log == s.sh.log + [e] && s'.sh.files == Apply(s.sh.files, e);
      if e.Unlocked? {
        PendingAfterUnlock(cfg, s, i, ch, e);
      } else {
        HeldAfterEvent(cfg, s.sh.files, e, p, c);
      }
    }
  }

  lemma PendingAfterUnlock(cfg: Config, s: State, i: nat, ch: Choice, e: Event)
    requires Exclusive(s) && NoCrash(s) && TableInv(cfg, s) && Enabled(s, i, ch)
    requires e.Unlocked? && Fire(cfg, s, i, ch).sh.log == s.sh.log + [e]
    ensures BroadcastPending(Fire(cfg, s, i, ch))
  {
    var t := s.threads[i];
    TableFrame(cfg, s, i, ch);
    FileOpsHoldQueue(t.pc);
    HolderAfter(cfg, s, i, ch);
    assert |s.sh.log + [e]| > |s.sh.log|;
    assert Fetch(t.pc).FileOp?;
    assert Holds(t.pc, QueueM);
    UnlockLeavesPending(cfg, s.sh, t, e);
  }

  ghost predicate WaitsFor(s: State, w: nat, p: Path) {
    w < |s.threads| && Waits(s.threads[w].pc) && (s.threads[w].req.Open? || s.threads[w].req.Lock?)
    && s.threads[w].req.path == p
  }

  /** The broadcast that is pending is that of an unlock of `p`. */
  ghost predicate PendingFor(s: State, p: Path) {
    BroadcastPending(s) && s.threads[s.holder[QueueM]].req == Unlock(p)
  }

  /** Waiting for `p` is justified: another client owns it, or the thread that has unlocked it is about
      to broadcast. */
  ghost predicate Justified(s: State, w: nat, p: Path) {
    PendingFor(s, p) || (w < |s.threads| && HeldByOther(s.sh.files, p, s.threads[w].client))
  }

  /** A pending broadcast stays that of the same unlock. */
  lemma PendingForStays(cfg: Config, s: State, i: nat, ch: Choice, p: Path)
    requires Exclusive(s) && NoCrash(s) && Enabled(s, i, ch) && PendingFor(s, p) && s.threads[i].pc != Locking(BcastL)
    ensures PendingFor(Fire(cfg, s, i, ch), p)
  {
    var h := s.holder[QueueM];
    PendingStays(cfg, s, i, ch);
    HolderAfter(cfg, s, i, ch);
    if i != h {
      OthersLeaveSection(cfg, s, i, ch, h);
      assert !Holds(s.threads[i].pc, QueueM);
    } else {
      PendingMoves(cfg, s, i, ch);
      StepSelf(cfg, s, i, ch);
    }
  }

  /** The step that brings up a pending broadcast is an unlock. */
  lemma UnlockStep(cfg: Config, s: State, i: nat, ch: Choice)
    requires Inv(cfg, s) && Enabled(s, i, ch) && !BroadcastPending(s) && BroadcastPending(Fire(cfg, s, i, ch))
    ensures var t := s.threads[i];
            && t.req.Unlock? && PendingFor(Fire(cfg, s, i, ch), t.req.path)
            && WellFormed(cfg, s.sh.files)
            && Fire(cfg, s, i, ch).sh.files == Outcome(cfg, s.sh.files, t.client, t.req).files
  {
    PendingFrom(cfg, s, i, ch);
    assert Holds(s.threads[i].pc, QueueM);
    HolderAfter(cfg, s, i, ch);
    TableFrame(cfg, s, i, ch);
    RunsStayWellFormed(cfg, s.sh.log);
  }

  lemma PendingForOrElsewhere(cfg: Config, s: State, i: nat, ch: Choice, p: Path)
    requires Inv(cfg, s) && Enabled(s, i, ch) && !BroadcastPending(s) && BroadcastPending(Fire(cfg, s, i, ch))
    ensures PendingFor(Fire(cfg, s, i, ch), p) || Look(Fire(cfg, s, i, ch).sh.files, p) == Look(s.sh.files, p)
  {
    UnlockStep(cfg, s, i, ch);
    if s.threads[i].req.path != p {
      UnlockElsewhere(cfg, s.sh.files, s.threads[i].client, s.threads[i].req, p);
    }
  }

  lemma UnlockElsewhere(cfg: Config, files: Store, c: ClientId, req: Request, p: Path)
    requires WellFormed(cfg, files) && req.Unlock? && req.path != p
    ensures Look(Outcome(cfg, files, c, req).files, p) == Look(files, p)
  {
    SingleEvent(cfg, files, c, req);
    match EventOf(cfg, files, c, req)
    case None =>
    case Some(e) => LookAfter(cfg, files, e, p);
  }

  /** A wait that goes on. */
  lemma StaysJustified(cfg: Config, s: State, i: nat, ch: Choice, w: nat, p: Path)
    requires Inv(cfg, s) && Enabled(s, i, ch) && s.threads[i].pc != Locking(BcastL)
    requires WaitsFor(s, w, p) && Justified(s, w, p) && Waits(Fire(cfg, s, i, ch).threads[w].pc)
    requires Has(Fire(cfg, s, i, ch).sh.files, p)
    ensures Justified(Fire(cfg, s, i, ch), w, p)
  {
    SameWaiter(cfg, s, i, ch, w);
    if PendingFor(s, p) {
      PendingForStays(cfg, s, i, ch, p);
    } else if BroadcastPending(s) {
      PendingStays(cfg, s, i, ch);
    } else {
      HeldAfterStep(cfg, s, i, ch, p, s.threads[w].client);
      if BroadcastPending(Fire(cfg, s, i, ch)) {
        PendingForOrElsewhere(cfg, s, i, ch, p);
      }
    }
  }

  /** A wait that begins with this step. */
  lemma BeginsJustified(cfg: Config, s: State, i: nat, ch: Choice, w: nat, p: Path)
    requires Inv(cfg, s) && Enabled(s, i, ch) && w < |s.threads|
    requires !Waits(s.threads[w].pc) && WaitsFor(Fire(cfg, s, i, ch), w, p)
    ensures Justified(Fire(cfg, s, i, ch), w, p)
  {
    if w == i {
      SelfWaitsBefore(cfg, s, i, ch);
    } else {
      OtherWaitsBefore(cfg, s, i, ch, w);
    }
  }

  /** No lost wake-up, one step: as long as its file stays in the table, a worker's waiting stays
      justified. */
  lemma NoLostWakeupStep(cfg: Config, s: State, i: nat, ch: Choice, w: nat, p: Path)
    requires Inv(cfg, s) && Enabled(s, i, ch) && w < |s.threads|
    requires WaitsFor(Fire(cfg, s, i, ch), w, p) && Has(Fire(cfg, s, i, ch).sh.files, p)
    requires Waits(s.threads[w].pc) ==> WaitsFor(s, w, p) && Justified(s, w, p)
    ensures Justified(Fire(cfg, s, i, ch), w, p)
  {
    if s.threads[i].pc == Locking(BcastL) {
      BroadcastWakesAll(cfg, s, i, ch, w);
    } else if Waits(s.threads[w].pc) {
      StaysJustified(cfg, s, i, ch, w, p);
    } else {
      BeginsJustified(cfg, s, i, ch, w, p);
    }
  }

  lemma NoLostWakeupMove(cfg: Config, s: State, m: Move, s': State, w: nat, p: Path)
    requires Inv(cfg, s) && IsStep(cfg, s, m, s') && w < |s.threads|
    requires WaitsFor(s', w, p) && Has(s'.sh.files, p)
    requires Waits(s.threads[w].pc) ==> WaitsFor(s, w, p) && Justified(s, w, p)
    ensures Justified(s', w, p)
  {
    NoLostWakeupStep(cfg, s, m.who, m.ch, w, p);
  }

  lemma NoLostWakeupNext(cfg: Config, tr: seq<State>, mv: seq<Move>, k: nat, w: nat, p: Path)
    requires IsRun(cfg, tr, mv) && k < |mv| && w < |tr[k].threads|
    requires WaitsFor(tr[k + 1], w, p) && Has(tr[k + 1].sh.files, p)
    requires Waits(tr[k].threads[w].pc) ==> WaitsFor(tr[k], w, p) && Justified(tr[k], w, p)
    ensures Justified(tr[k + 1], w, p)
  {
    var s, m, s' := tr[k], mv[k], tr[k + 1];
    assert Inv(cfg, s) && IsStep(cfg, s, m, s') by { RunStep(cfg, tr, mv, k); }
    NoLostWakeupMove(cfg, s, m, s', w, p);
  }

  /** No lost wake-up over whole runs: if worker `w` has been waiting for `p` ever since state `a`,
      where it decided to, and `p` has stayed in the table, then `p` is owned by another client or
      the broadcast of an unlock of `p` is under way. */
  lemma {:induction false} NoLostWakeup(cfg: Config, tr: seq<State>, mv: seq<Move>, a: nat, b: nat, w: nat, p: Path)
    requires IsRun(cfg, tr, mv) && 0 < a <= b < |tr|
    requires w < |tr[a - 1].threads| && !Waits(tr[a - 1].threads[w].pc)
    requires forall k :: a <= k <= b ==> WaitsFor(tr[k], w, p) && Has(tr[k].sh.files, p)
    ensures Justified(tr[b], w, p)
    decreases b
  {
    assert WaitsFor(tr[b], w, p);
    if a < b {
      NoLostWakeup(cfg, tr, mv, a, b - 1, w, p);
      assert WaitsFor(tr[b - 1], w, p);
    }
    NoLostWakeupNext(cfg, tr, mv, b - 1, w, p);
  }

  // ----- Being left behind -----

  /** A waiting worker is stranded when testing again would not make it wait and nobody is about to
      wake it. */
  ghost predicate Stranded(s: State, w: nat, p: Path) {
    WaitsFor(s, w, p) && !Blocked(s.sh.files, p, s.threads[w].client) && !BroadcastPending(s)
  }

  /** The thread is about to take `p` away from those who wait for it: by the owner's delete or
      close, or as the victim of an eviction. None of the three wakes anybody. */
  ghost predicate TakesAway(sh: Shared, t: Thread, p: Path) {
    || (t.pc == Req(Simple) && (t.req == Delete(p) || t.req == Close(p)) && HasLock(sh.files, p, t.client))
    || (t.pc == Section(Evicting) && t.vic == Find(sh.files, p))
  }

  /** The file is no longer there, or no longer open. */
  ghost predicate Lost(files: Store, p: Path) {
    !Has(files, p) || !Get(files, p).open
  }

  lemma LostBySimple(cfg: Config, sh: Shared, t: Thread, r: ReqPC, p: Path)
    requires t.pc == Req(r) && FetchReq(r).FileOp? && Base(cfg, sh) && Assertion(cfg, sh, t) && !Lost(sh.files, p)
    ensures Lost(ReqStep(cfg, sh, t, r).0.files, p) <==> TakesAway(sh, t, p)
  {
    if r.Simple? {
      RunsStayWellFormed(cfg, sh.log);
      LostByOutcome(cfg, sh.files, t.client, t.req, p);
    }
  }

  /** A request that is neither open, lock, write nor append. */
  lemma LostByOutcome(cfg: Config, files: Store, c: ClientId, req: Request, p: Path)
    requires WellFormed(cfg, files) && !Lost(files, p) && (req.Read? || req.ReadN? || req.Close? || req.Delete?)
    ensures Lost(Outcome(cfg, files, c, req).files, p)
            <==> (req == Delete(p) || req == Close(p)) && HasLock(files, p, c)
  {
    SingleEvent(cfg, files, c, req);
    if EventOf(cfg, files, c, req).Some? {
      var e := EventOf(cfg, files, c, req).value;
      assert e == Closed(req.path, c) || e == Deleted(req.path, c);
      LookAfter(cfg, files, e, p);
    }
  }

  lemma NotLostByLocking(cfg: Config, sh: Shared, t: Thread, l: LockPC, p: Path)
    requires t.pc == Locking(l) && FetchLocking(l).FileOp? && Base(cfg, sh) && Assertion(cfg, sh, t)
             && !Lost(sh.files, p)
    ensures !Lost(LockStep(cfg, sh, t, l).0.files, p)
  {
    RunsStayWellFormed(cfg, sh.log);
    SingleEvent(cfg, sh.files, t.client, t.req);
    match EventOf(cfg, sh.files, t.client, t.req)
    case None =>
    case Some(e) => LookAfter(cfg, sh.files, e, p);
  }

  lemma LostBySection(cfg: Config, sh: Shared, t: Thread, s: SectionPC, p: Path)
    requires t.pc == Section(s) && FetchSection(s).FileOp? && Base(cfg, sh) && SectionAssertion(cfg, sh, t, s)
    requires !Lost(sh.files, p)
    ensures Lost(SectionStep(cfg, sh, t, s).0.files, p) <==> TakesAway(sh, t, p)
  {
    RunsStayWellFormed(cfg, sh.log);
    if s.Evicting? {
      FindUnique(sh.files, t.vic);
      RemovalLook(sh.files, t.vic, p);
    } else if s.PutBytes? {
      NotLostByPut(cfg, sh.files, t.client, t.req, p);
    }
  }

  lemma NotLostByPut(cfg: Config, files: Store, c: ClientId, req: Request, p: Path)
    requires WellFormed(cfg, files) && IsSection(req) && HasLock(files, req.path, c) && |req.data| <= Free(cfg, files)
    requires !Lost(files, p)
    ensures !Lost(Put(files, req).files, p)
  {
    if Get(files, req.path).open {
      PutIsEvent(cfg, files, c, req);
      LookAfter(cfg, files, PutEvent(c, req), p);
    }
  }

  lemma LostByFileStep(cfg: Config, sh: Shared, t: Thread, p: Path)
    requires Fetch(t.pc).FileOp? && Base(cfg, sh) && Assertion(cfg, sh, t) && !Lost(sh.files, p)
    ensures Lost(FileStep(cfg, sh, t).0.files, p) <==> TakesAway(sh, t, p)
  {
    match t.pc
    case Req(r) => LostBySimple(cfg, sh, t, r, p);
    case Locking(l) => NotLostByLocking(cfg, sh, t, l, p);
    case Section(s) => LostBySection(cfg, sh, t, s, p);
    case Marking(k, m) => NotLostByMark(sh, t, k, m);
  }

  lemma NotLostByMark(sh: Shared, t: Thread, k: Mark, m: MarkPC)
    requires t.pc == Marking(k, m)
    ensures MarkStep(sh, t, k, m).0.files == sh.files
  {
  }

  /** Which steps take a file away. */
  lemma LostByStep(cfg: Config, s: State, i: nat, ch: Choice, p: Path)
    requires Exclusive(s) && TableInv(cfg, s) && Enabled(s, i, ch) && !Lost(s.sh.files, p)
    ensures Lost(Fire(cfg, s, i, ch).sh.files, p) <==> TakesAway(s.sh, s.threads[i], p)
  {
    TableFrame(cfg, s, i, ch);
    FileOpsHoldQueue(s.threads[i].pc);
    if Fetch(s.threads[i].pc).FileOp? {
      assert s.holder[QueueM] == i;
      LostByFileStep(cfg, s.sh, s.threads[i], p);
    }
  }

  /** Exactly when a waiting worker is left behind: when the step about to be made is the delete or
      close of its file by the owner, or its eviction. */
  lemma StrandedExactlyBy(cfg: Config, s: State, i: nat, ch: Choice, w: nat, p: Path)
    requires Inv(cfg, s) && Enabled(s, i, ch)
    requires WaitsFor(s, w, p) && WaitsFor(Fire(cfg, s, i, ch), w, p) && !Stranded(s, w, p)
    ensures Stranded(Fire(cfg, s, i, ch), w, p) <==> TakesAway(s.sh, s.threads[i], p)
  {
    var s' := Fire(cfg, s, i, ch);
    var c := s.threads[w].client;
    if s.threads[i].pc == Locking(BcastL) {
      BroadcastWakesAll(cfg, s, i, ch, w);
    } else if BroadcastPending(s) {
      PendingStays(cfg, s, i, ch);
      PendingTakesNothing(s, i, p);
    } else {
      assert Blocked(s.sh.files, p, c);
      SameWaiter(cfg, s, i, ch, w);
      LostByStep(cfg, s, i, ch, p);
      HeldAfterStep(cfg, s, i, ch, p, c);
      if BroadcastPending(s') {
        UnlockKeepsFile(cfg, s, i, ch, p);
      }
    }
  }

  /** While a broadcast is pending its thread has the queue mutex, so nobody takes a file away. */
  lemma PendingTakesNothing(s: State, i: nat, p: Path)
    requires Exclusive(s) && BroadcastPending(s) && i < |s.threads|
    ensures !TakesAway(s.sh, s.threads[i], p)
  {
    if TakesAway(s.sh, s.threads[i], p) {
      assert Holds(s.threads[i].pc, QueueM);
    }
  }

  /** The same over runs: a step of a run leaves a waiting worker behind exactly when it is one of
      those three. */
  lemma StrandedOverRuns(cfg: Config, tr: seq<State>, mv: seq<Move>, k: nat, w: nat, p: Path)
    requires IsRun(cfg, tr, mv) && k < |mv|
    requires WaitsFor(tr[k], w, p) && WaitsFor(tr[k + 1], w, p) && !Stranded(tr[k], w, p)
    ensures mv[k].who < |tr[k].threads|
    ensures Stranded(tr[k + 1], w, p) <==> TakesAway(tr[k].sh, tr[k].threads[mv[k].who], p)
  {
    var s, m, s' := tr[k], mv[k], tr[k + 1];
    assert Inv(cfg, s) && IsStep(cfg, s, m, s') by { RunStep(cfg, tr, mv, k); }
    StrandedMove(cfg, s, m, s', w, p);
  }

  lemma StrandedMove(cfg: Config, s: State, m: Move, s': State, w: nat, p: Path)
    requires Inv(cfg, s) && IsStep(cfg, s, m, s')
    requires WaitsFor(s, w, p) && WaitsFor(s', w, p) && !Stranded(s, w, p)
    ensures Stranded(s', w, p) <==> TakesAway(s.sh, s.threads[m.who], p)
  {
    StrandedExactlyBy(cfg, s, m.who, m.ch, w, p);
  }

  lemma SameWaiter(cfg: Config, s: State, i: nat, ch: Choice, w: nat)
    requires Inv(cfg, s) && Enabled(s, i, ch) && w < |s.threads|
    requires Waits(s.threads[w].pc) && Waits(Fire(cfg, s, i, ch).threads[w].pc)
    ensures Fire(cfg, s, i, ch).threads[w].client == s.threads[w].client
  {
    if w == i {
      StepSelf(cfg, s, i, ch);
    } else {
      OtherWaitsBefore(cfg, s, i, ch, w);
    }
  }

  /** The step that brings up a pending broadcast is an unlock, which keeps every file and its
      openness. */
  lemma UnlockKeepsFile(cfg: Config, s: State, i: nat, ch: Choice, p: Path)
    requires Inv(cfg, s) && Enabled(s, i, ch) && !BroadcastPending(s) && BroadcastPending(Fire(cfg, s, i, ch))
    ensures var files, files' := s.sh.files, Fire(cfg, s, i, ch).sh.files;
            (Has(files', p) <==> Has(files, p)) && (Has(files, p) ==> Get(files', p).open == Get(files, p).open)
  {
    UnlockStep(cfg, s, i, ch);
    UnlockKeepsOpen(cfg, s.sh.files, s.threads[i].client, s.threads[i].req, p);
  }

  lemma UnlockKeepsOpen(cfg: Config, files: Store, c: ClientId, req: Request, p: Path)
    requires WellFormed(cfg, files) && req.Unlock?
    ensures var files' := Outcome(cfg, files, c, req).files;
            (Has(files', p) <==> Has(files, p)) && (Has(files, p) ==> Get(files', p).open == Get(files, p).open)
  {
    SingleEvent(cfg, files, c, req);
    match EventOf(cfg, files, c, req)
    case None =>
    case Some(e) => LookAfter(cfg, files, e, p);
  }

  lemma MovePends(pc: PC)
    requires Moves(Fetch(pc)) && Pends(Fetch(pc).next)
    ensures pc == Locking(WantLB)
  {
  }

  lemma PoolLeadsElsewhere(pool: Pool, t: Thread, ch: Choice)
    requires Fetch(t.pc).PoolOp? || Fetch(t.pc).FromOutside?
    ensures !PoolStep(pool, t, ch).1.pc.Locking?
  {
  }

  lemma FilePends(cfg: Config, sh: Shared, t: Thread)
    requires Fetch(t.pc).FileOp? && Assertion(cfg, sh, t) && Pends(FileStep(cfg, sh, t).1.pc)
    ensures t.pc == Locking(DoUnlock) && t.req.Unlock?
  {
    OnlyUnlockPends(cfg, sh, t);
    FileToPending(cfg, sh, t);
  }

  lemma IdlePends(cfg: Config, s: State, i: nat, ch: Choice)
    requires Enabled(s, i, ch) && !Fetch(s.threads[i].pc).FileOp? && Pends(Fire(cfg, s, i, ch).threads[i].pc)
    ensures s.threads[i].pc == Locking(WantLB)
  {
    var t := s.threads[i];
    StepSelf(cfg, s, i, ch);
    if Fetch(t.pc).PoolOp? || Fetch(t.pc).FromOutside? {
      PoolLeadsElsewhere(s.pool, t, ch);
    } else if t.pc != Section(Receive) {
      MovePends(t.pc);
    }
  }

  lemma PendingFromSelf(cfg: Config, s: State, i: nat, ch: Choice)
    requires Exclusive(s) && TableInv(cfg, s) && Enabled(s, i, ch) && Pends(Fire(cfg, s, i, ch).threads[i].pc)
    ensures s.threads[i].pc == Locking(WantLB) || (s.threads[i].pc == Locking(DoUnlock) && s.threads[i].req.Unlock?)
  {
    var t := s.threads[i];
    if Fetch(t.pc).FileOp? {
      HolderAsserts(cfg, s, i);
      TableFrame(cfg, s, i, ch);
      FilePends(cfg, s.sh, t);
    } else {
      IdlePends(cfg, s, i, ch);
    }
  }

  lemma FileToPending(cfg: Config, sh: Shared, t: Thread)
    requires Fetch(t.pc).FileOp?
    ensures FileStep(cfg, sh, t).1.pc != Locking(BcastL)
  {
    match t.pc
    case Req(r) => ReqToPending(cfg, sh, t, r);
    case Locking(l) => LockToPending(cfg, sh, t, l);
    case Section(s) =>
    case Marking(k, m) =>
  }

  lemma ReqToPending(cfg: Config, sh: Shared, t: Thread, r: ReqPC)
    requires FetchReq(r).FileOp?
    ensures ReqStep(cfg, sh, t, r).1.pc != Locking(BcastL)
  {
  }

  lemma LockToPending(cfg: Config, sh: Shared, t: Thread, l: LockPC)
    requires FetchLocking(l).FileOp?
    ensures LockStep(cfg, sh, t, l).1.pc != Locking(BcastL)
  {
  }

  lemma PendingFrom(cfg: Config, s: State, i: nat, ch: Choice)
    requires Exclusive(s) && NoCrash(s) && TableInv(cfg, s) && Enabled(s, i, ch)
    requires !BroadcastPending(s) && BroadcastPending(Fire(cfg, s, i, ch))
    ensures s.threads[i].pc == Locking(DoUnlock) && s.threads[i].req.Unlock?
  {
    var h := Fire(cfg, s, i, ch).holder[QueueM];
    if h == i {
      PendingFromSelf(cfg, s, i, ch);
      assert Holds(s.threads[i].pc, QueueM);
    } else {
      PendingFromOther(cfg, s, i, ch);
      assert false;
    }
  }

  /** A step of a thread that does not get the queue mutex makes no broadcast pending. */
  lemma PendingFromOther(cfg: Config, s: State, i: nat, ch: Choice)
    requires Enabled(s, i, ch) && BroadcastPending(Fire(cfg, s, i, ch)) && Fire(cfg, s, i, ch).holder[QueueM] != i
    ensures BroadcastPending(s)
  {
    HolderAfter(cfg, s, i, ch);
    StepFrame(cfg, s, i, ch, Fire(cfg, s, i, ch).holder[QueueM]);
  }

  /** Shutdown does not reach them: the signal thread's second broadcast goes to the condition of
      the file queue, on which nobody sleeps, so no step of the signal thread ends any wait for a
      file lock. */
  lemma ShutdownLeavesLockWaiters(cfg: Config, s: State, i: nat, ch: Choice, w: nat)
    requires Enabled(s, i, ch) && w < |s.threads| && s.threads[i].pc.Signal? && Waits(s.threads[w].pc)
    ensures Fire(cfg, s, i, ch).threads[w] == s.threads[w]
    ensures s.threads[i].pc == Signal(MonBcastQ) ==>
              forall j :: 0 <= j < |s.threads| && j != i ==> Fire(cfg, s, i, ch).threads[j] == s.threads[j]
  {
    StepFrame(cfg, s, i, ch, w);
  }
}
