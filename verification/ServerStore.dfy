/** The queue mutex protects the table.

    `Base` holds of the shared data always, `Quiet` whenever the queue mutex is free, and
    `Assertion` says what the thread holding it knows at each program point. Every other thread's
    steps leave the shared data alone, so these three carry over all runs. */
module ServerStore {
  import opened Files
  import opened EventLog
  import opened LogTheorems
  import opened Operations
  import opened Server

  function Max(a: int, b: int): int { if a > b then a else b }

  /** The table is the event log replayed, every event was legal, and each mark is the exact peak
      once it has been raised to the present level. */
  ghost predicate Base(cfg: Config, sh: Shared) {
    && LegalLog(cfg, sh.log)
    && sh.files == Rebuild(sh.log)
    && Max(sh.maxNum, Level(sh.files, NumFile)) == Peak(sh.log, NumFile)
    && Max(sh.maxSize, Level(sh.files, Storage)) == Peak(sh.log, Storage)
  }

  ghost predicate Settled(sh: Shared, k: Mark) {
    Level(sh.files, k) <= MarkOf(sh, k)
  }

  ghost predicate Quiet(sh: Shared) {
    Settled(sh, NumFile) && Settled(sh, Storage) && sh.replaced == Count(sh.log, Replacement)
  }

  /** The request has taken effect: table and answer are those of the request run alone on the
      table its critical section began with. */
  ghost predicate Done(cfg: Config, sh: Shared, t: Thread) {
    Result(sh.files, t.status) == Served(cfg, t.snap, t.client, t.req, t.unset) && t.status != WAIT
    && WellFormed(cfg, t.snap)
  }

  /** A request that will touch the table at most once is about to do so. */
  ghost predicate Start(sh: Shared, t: Thread) {
    Quiet(sh) && sh.files == t.snap && !IsSection(t.req)
  }

  ghost predicate Roomy(cfg: Config, sh: Shared, t: Thread) {
    && IsSection(t.req)
    && Operations.Room(cfg, t.snap, t.req) == Some(sh.files)
    && |t.req.data| <= Free(cfg, sh.files)
    && WellFormed(cfg, t.snap)
  }

  ghost predicate LockAssertion(cfg: Config, sh: Shared, t: Thread, l: LockPC) {
    match l
    case WantL => Start(sh, t) && (t.req.Open? || t.req.Lock?)
    case Try => Start(sh, t) && (t.req.Open? || t.req.Lock?)
    case DropQ =>
      && Start(sh, t) && (t.req.Open? || t.req.Lock?)
      && t.status == WAIT == Outcome(cfg, t.snap, t.client, t.req).status
    case RelL => Quiet(sh) && Done(cfg, sh, t)
    case DoUnlock => Start(sh, t) && t.req.Unlock?
    case WantLB => Quiet(sh) && Done(cfg, sh, t) && t.req.Unlock? && t.status == OK
    case BcastL => Quiet(sh) && Done(cfg, sh, t) && t.req.Unlock? && t.status == OK
    case _ => true
  }

  ghost predicate SectionAssertion(cfg: Config, sh: Shared, t: Thread, s: SectionPC) {
    && IsSection(t.req)
    && (t.req.Write? ==> |t.req.data| <= cfg.maxMem)
    && Settled(sh, NumFile) && Settled(sh, Storage)
    && sh.replaced + (if s.IncWant? || s.Inc? then 1 else 0) == Count(sh.log, Replacement)
    && match s
       case Room => sh.files == t.snap
       case Evicting =>
         && sh.files == t.snap && |t.req.data| > Free(cfg, sh.files)
         && t.vic == FirstFit(sh.files, Free(cfg, sh.files), |t.req.data|) < |sh.files|
       case Receive => Roomy(cfg, sh, t) && HasLock(sh.files, t.req.path, t.client) && 0 < t.left <= |t.req.data|
       case PutBytes =>
         && Roomy(cfg, sh, t) && HasLock(sh.files, t.req.path, t.client)
         && !Unanswered(t.snap, t.client, t.req, t.unset)
       case _ => Roomy(cfg, sh, t)
  }

  ghost predicate MarkAssertion(cfg: Config, sh: Shared, t: Thread, k: Mark, m: MarkPC) {
    && Done(cfg, sh, t)
    && t.status == OK
    && (if k == NumFile then t.req.Open? else IsSection(t.req))
    && Settled(sh, if k == NumFile then Storage else NumFile)
    && sh.replaced == Count(sh.log, Replacement)
    && (m.GetRel? || m.Compare? || m.SetWant? || m.SetMark? ==> t.seen == MarkOf(sh, k))
    && (m.SetWant? || m.SetMark? ==> t.now == Level(sh.files, k) > t.seen)
    && (m.SetRel? ==> Settled(sh, k))
  }

  /** Writing to the log changes nothing that the thread knows. */
  ghost predicate LogAssertion(cfg: Config, sh: Shared, t: Thread, at: LogSite) {
    match at
    case BeforeQueue => true
    case RoomFound => SectionAssertion(cfg, sh, t, CheckOwner)
    case VictimSent => SectionAssertion(cfg, sh, t, Evicting)
    case EmptyRead => Quiet(sh) && Done(cfg, sh, t)
  }

  /** What a thread that holds the queue mutex knows at its program point. */
  ghost predicate Assertion(cfg: Config, sh: Shared, t: Thread) {
    match t.pc
    case Signal(_) => Quiet(sh)
    case Req(r) =>
      if r.Simple? then Start(sh, t) && (t.req.Read? || t.req.ReadN? || t.req.Close? || t.req.Delete?)
      else if r.Reply? then Quiet(sh) && Done(cfg, sh, t)
      else Quiet(sh)
    case Locking(l) => LockAssertion(cfg, sh, t, l)
    case Section(s) => SectionAssertion(cfg, sh, t, s)
    case Marking(k, m) => MarkAssertion(cfg, sh, t, k, m)
    case Logging(at, _) => LogAssertion(cfg, sh, t, at)
    case Crashed(_) => false
    case _ => true
  }

  // ----- One access to the table -----

  /** How one access changes the shared data: not at all, or by one legal event made for the
      thread's client. */
  ghost predicate OneEvent(cfg: Config, sh: Shared, sh': Shared, c: ClientId) {
    || (sh'.log == sh.log && sh'.files == sh.files)
    || (exists e: Event :: e.actor == c && Legal(cfg, sh.files, e)
          && sh'.log == sh.log + [e] && sh'.files == Apply(sh.files, e))
  }

  lemma RecordEvent(cfg: Config, sh: Shared, e: Event)
    requires Base(cfg, sh) && Settled(sh, NumFile) && Settled(sh, Storage) && Legal(cfg, sh.files, e)
    ensures var sh' := Record(sh, Apply(sh.files, e), [e]);
            && Base(cfg, sh') && OneEvent(cfg, sh, sh', e.actor)
            && (|Apply(sh.files, e)| <= |sh.files| ==> Settled(sh', NumFile))
            && (Total(Apply(sh.files, e)) <= Total(sh.files) ==> Settled(sh', Storage))
            && Count(sh'.log, Replacement) == Count(sh.log, Replacement) + if OfKind(e, Replacement) then 1 else 0
  {
    LogStep(cfg, sh.log, e);
    PeakStep(sh.log, e, NumFile);
    PeakStep(sh.log, e, Storage);
    CountStep(sh.log, e, Replacement);
  }

  lemma RecordNothing(cfg: Config, sh: Shared)
    ensures Record(sh, sh.files, []) == sh
  {
  }

  /** An access by a request that touches the table at most once. */
  lemma RecordOutcome(cfg: Config, sh: Shared, c: ClientId, req: Request)
    requires Base(cfg, sh) && Quiet(sh) && !IsSection(req)
    ensures var e := EventOf(cfg, sh.files, c, req);
            var sh' := Record(sh, Outcome(cfg, sh.files, c, req).files, Logged(e));
            && Base(cfg, sh') && OneEvent(cfg, sh, sh', c)
            && Settled(sh', Storage)
            && (!(e.Some? && e.value.Created?) ==> Settled(sh', NumFile))
            && sh'.replaced == Count(sh'.log, Replacement)
            && WellFormed(cfg, sh.files)
  {
    RunsStayWellFormed(cfg, sh.log);
    SingleEvent(cfg, sh.files, c, req);
    match EventOf(cfg, sh.files, c, req)
    case None => RecordNothing(cfg, sh);
    case Some(e) =>
      RecordEvent(cfg, sh, e);
      SizeAfter(cfg, sh.files, e);
  }

  /** An access keeps the invariant of the shared data, makes at most one event and leads to the
      next assertion. */
  ghost predicate Kept(cfg: Config, sh: Shared, t: Thread, n: (Shared, Thread)) {
    match n
    case (sh', t') => Base(cfg, sh') && Assertion(cfg, sh', t') && OneEvent(cfg, sh, sh', t.client)
  }

  lemma DispatchKeeps(cfg: Config, sh: Shared, t: Thread)
    requires t.pc == Req(Dispatch) && Base(cfg, sh) && Quiet(sh)
    ensures Kept(cfg, sh, t, FileStep(cfg, sh, t))
  {
    RunsStayWellFormed(cfg, sh.log);
    RouteAsserts(cfg, sh, t.(snap := sh.files, status := FAIL, pc := Route(cfg, t.req)));
  }

  lemma RouteAsserts(cfg: Config, sh: Shared, t: Thread)
    requires Quiet(sh) && WellFormed(cfg, sh.files) && t.snap == sh.files && t.status == FAIL
             && t.pc == Route(cfg, t.req)
    ensures Assertion(cfg, sh, t)
  {
    if t.req.Write? && |t.req.data| > cfg.maxMem {
      DoneNow(cfg, sh.files, sh, t);
    }
  }

  /** A request that has just been carried out on the table it started from is done. */
  lemma DoneNow(cfg: Config, files: Store, sh: Shared, t: Thread)
    requires Result(sh.files, t.status) == Served(cfg, files, t.client, t.req, t.unset) && t.status != WAIT
    requires WellFormed(cfg, files) && t.snap == files
    ensures Done(cfg, sh, t)
  {
  }

  lemma DoneAssertion(cfg: Config, sh: Shared, t: Thread)
    requires Done(cfg, sh, t) && sh.replaced == Count(sh.log, Replacement) && Settled(sh, Storage)
    requires t.pc == Marking(NumFile, GetWant) ==> t.req.Open? && t.status == OK
    requires t.pc == Locking(WantLB) ==> t.req.Unlock? && t.status == OK
    requires t.pc == Marking(NumFile, GetWant)
             || ((t.pc == Req(Reply) || t.pc == Logging(EmptyRead, LogWant) || t.pc == Locking(RelL)
                  || t.pc == Locking(WantLB)) && Settled(sh, NumFile))
    ensures Assertion(cfg, sh, t)
  {
  }

  /** The common end of the requests that touch the table at most once. */
  lemma OutcomeKeeps(cfg: Config, sh: Shared, t: Thread, next: PC)
    requires Base(cfg, sh) && Start(sh, t)
    requires var r := Outcome(cfg, sh.files, t.client, t.req);
             var e := EventOf(cfg, sh.files, t.client, t.req);
             && r.status != WAIT
             && (next == Marking(NumFile, GetWant) ==> t.req.Open? && r.status == OK)
             && (next == Locking(WantLB) ==> t.req.Unlock? && r.status == OK)
             && (next == Marking(NumFile, GetWant)
                 || ((next == Req(Reply) || next == Logging(EmptyRead, LogWant) || next == Locking(RelL)
                      || next == Locking(WantLB))
                     && !(e.Some? && e.value.Created?)))
    ensures var r := Outcome(cfg, sh.files, t.client, t.req);
            var sh' := Record(sh, r.files, Logged(EventOf(cfg, sh.files, t.client, t.req)));
            Base(cfg, sh') && Assertion(cfg, sh', t.(status := r.status, pc := next)) && OneEvent(cfg, sh, sh', t.client)
  {
    var r := Outcome(cfg, sh.files, t.client, t.req);
    var sh' := Record(sh, r.files, Logged(EventOf(cfg, sh.files, t.client, t.req)));
    var t' := t.(status := r.status, pc := next);
    RecordOutcome(cfg, sh, t.client, t.req);
    DoneNow(cfg, sh.files, sh', t');
    DoneAssertion(cfg, sh', t');
  }

  lemma SimpleKeeps(cfg: Config, sh: Shared, t: Thread)
    requires t.pc == Req(Simple) && Base(cfg, sh) && Assertion(cfg, sh, t)
    ensures Kept(cfg, sh, t, FileStep(cfg, sh, t))
  {
    OutcomeKeeps(cfg, sh, t, AfterSimple(sh.files, t.req));
  }

  lemma TryKeeps(cfg: Config, sh: Shared, t: Thread)
    requires t.pc == Locking(Try) && Base(cfg, sh) && Assertion(cfg, sh, t)
    ensures Kept(cfg, sh, t, FileStep(cfg, sh, t))
  {
    var (sh', t') := LockStep(cfg, sh, t, Try);
    if Outcome(cfg, sh.files, t.client, t.req).status != WAIT {
      OutcomeKeeps(cfg, sh, t, t'.pc);
    }
  }

  lemma DoUnlockKeeps(cfg: Config, sh: Shared, t: Thread)
    requires t.pc == Locking(DoUnlock) && Base(cfg, sh) && Assertion(cfg, sh, t)
    ensures Kept(cfg, sh, t, FileStep(cfg, sh, t))
  {
    var (sh', t') := LockStep(cfg, sh, t, DoUnlock);
    OutcomeKeeps(cfg, sh, t, t'.pc);
  }

  lemma RoomKeeps(cfg: Config, sh: Shared, t: Thread)
    requires t.pc == Section(Room) && Base(cfg, sh) && Assertion(cfg, sh, t)
    ensures Kept(cfg, sh, t, FileStep(cfg, sh, t))
  {
    RunsStayWellFormed(cfg, sh.log);
    SectionAfterRoom(cfg, sh.files, t.client, t.req);
    if Operations.Room(cfg, sh.files, t.req).Some? {
      RoomIsEvents(cfg, sh.files, t.client, t.req);
    }
  }

  /** An eviction is one legal event and makes room. */
  lemma EvictionIsRecorded(cfg: Config, sh: Shared, c: ClientId, need: nat, forWrite: bool)
    requires Base(cfg, sh) && Settled(sh, NumFile) && Settled(sh, Storage) && need > Free(cfg, sh.files)
    requires FirstFit(sh.files, Free(cfg, sh.files), need) < |sh.files|
    ensures var k := FirstFit(sh.files, Free(cfg, sh.files), need);
            var sh' := Record(sh, RemoveAt(sh.files, k), [Evicted(sh.files[k].path, c, need, forWrite)]);
            && Base(cfg, sh') && OneEvent(cfg, sh, sh', c) && Settled(sh', NumFile) && Settled(sh', Storage)
            && Count(sh'.log, Replacement) == Count(sh.log, Replacement) + (if forWrite then 1 else 0)
            && need <= Free(cfg, sh'.files) && WellFormed(cfg, sh.files)
  {
    var k := FirstFit(sh.files, Free(cfg, sh.files), need);
    var e := Evicted(sh.files[k].path, c, need, forWrite);
    RunsStayWellFormed(cfg, sh.log);
    EvictionEvent(cfg, sh.files, c, need, forWrite);
    RecordEvent(cfg, sh, e);
    SizeAfter(cfg, sh.files, e);
  }

  lemma EvictingKeeps(cfg: Config, sh: Shared, t: Thread)
    requires t.pc == Section(Evicting) && Base(cfg, sh) && Assertion(cfg, sh, t)
    ensures Kept(cfg, sh, t, FileStep(cfg, sh, t))
  {
    EvictionIsRecorded(cfg, sh, t.client, |t.req.data|, t.req.Write?);
  }

  /** A request for no bytes always has room. */
  lemma NothingNeedsNoRoom(cfg: Config, sh: Shared, t: Thread)
    requires Roomy(cfg, sh, t) && t.req.data == []
    ensures sh.files == t.snap
  {
  }

  /** A section that found room and then no lock is done, with the answer FAIL. */
  lemma AbortIsDone(cfg: Config, sh: Shared, t: Thread)
    requires Roomy(cfg, sh, t) && !HasLock(sh.files, t.req.path, t.client) && t.status == FAIL
    ensures Done(cfg, sh, t)
  {
  }

  /** A section that found room and the lock is done once the bytes are stored. */
  lemma PutIsDone(cfg: Config, sh: Shared, t: Thread, sh': Shared, t': Thread)
    requires Roomy(cfg, sh, t) && HasLock(sh.files, t.req.path, t.client)
    requires Result(sh'.files, t'.status) == Put(sh.files, t.req)
    requires t'.snap == t.snap && t'.client == t.client && t'.req == t.req && t'.unset == t.unset
    requires !Unanswered(t.snap, t.client, t.req, t.unset)
    ensures Done(cfg, sh', t')
  {
  }

  /** The lock holder's write of no bytes is done at once if the unset variable says so. */
  lemma SilenceIsDone(cfg: Config, sh: Shared, t: Thread)
    requires Roomy(cfg, sh, t) && HasLock(sh.files, t.req.path, t.client) && t.status == UNANSWERED
    requires t.req.Write? && t.req.data == [] && t.unset == -1
    ensures Done(cfg, sh, t)
  {
    NothingNeedsNoRoom(cfg, sh, t);
  }

  lemma AnsweredAssertion(cfg: Config, sh: Shared, t: Thread)
    requires SectionAssertion(cfg, sh, t, CheckOwner) && Done(cfg, sh, t)
    ensures Assertion(cfg, sh, t.(pc := Req(Reply)))
  {
    DoneNow(cfg, t.snap, sh, t.(pc := Req(Reply)));
    DoneAssertion(cfg, sh, t.(pc := Req(Reply)));
  }

  lemma GoingOnAssertion(cfg: Config, sh: Shared, t: Thread)
    requires SectionAssertion(cfg, sh, t, CheckOwner) && HasLock(sh.files, t.req.path, t.client)
    ensures t.req.data != [] ==> Assertion(cfg, sh, t.(left := |t.req.data|, pc := Section(Receive)))
    ensures t.req.data == [] && !(t.req.Write? && t.unset == -1) ==> Assertion(cfg, sh, t.(pc := Section(PutBytes)))
  {
  }

  lemma CheckOwnerKeeps(cfg: Config, sh: Shared, t: Thread)
    requires t.pc == Section(CheckOwner) && Base(cfg, sh) && SectionAssertion(cfg, sh, t, CheckOwner)
    ensures Kept(cfg, sh, t, FileStep(cfg, sh, t))
  {
    var aborted, silent := t.(status := FAIL), t.(status := UNANSWERED);
    if !HasLock(sh.files, t.req.path, t.client) {
      AbortIsDone(cfg, sh, aborted);
      AnsweredAssertion(cfg, sh, aborted);
    } else if t.req.Write? && t.req.data == [] && t.unset == -1 {
      SilenceIsDone(cfg, sh, silent);
      AnsweredAssertion(cfg, sh, silent);
    } else {
      GoingOnAssertion(cfg, sh, t);
    }
  }

  /** Receiving leaves the shared data alone and ends in readiness to store. */
  lemma ReceivedKeeps(cfg: Config, sh: Shared, t: Thread, piece: nat)
    requires t.pc == Section(Receive) && SectionAssertion(cfg, sh, t, Receive) && 1 <= piece <= t.left
    ensures Assertion(cfg, sh, Received(t, piece))
  {
  }

  /** Storing the bytes is one legal event, or none when the file is closed. */
  lemma PutIsRecorded(cfg: Config, sh: Shared, c: ClientId, req: Request)
    requires Base(cfg, sh) && Quiet(sh) && IsSection(req) && |req.data| <= Free(cfg, sh.files)
    requires HasLock(sh.files, req.path, c)
    ensures var r := Put(sh.files, req);
            var sh' := Record(sh, r.files, if r.status == OK then [PutEvent(c, req)] else []);
            && Base(cfg, sh') && OneEvent(cfg, sh, sh', c) && Settled(sh', NumFile)
            && sh'.replaced == Count(sh'.log, Replacement)
            && (r.status != OK ==> r.status == FAIL && sh' == sh)
  {
    RunsStayWellFormed(cfg, sh.log);
    if Get(sh.files, req.path).open {
      PutIsEvent(cfg, sh.files, c, req);
      RecordEvent(cfg, sh, PutEvent(c, req));
      SizeAfter(cfg, sh.files, PutEvent(c, req));
    } else {
      RecordNothing(cfg, sh);
    }
  }

  lemma StoredAssertion(cfg: Config, sh: Shared, t: Thread)
    requires Done(cfg, sh, t) && IsSection(t.req) && Settled(sh, NumFile) && sh.replaced == Count(sh.log, Replacement)
    ensures t.status == OK ==> Assertion(cfg, sh, t.(pc := Marking(Storage, GetWant)))
    ensures t.status != OK && Settled(sh, Storage) ==> Assertion(cfg, sh, t.(pc := Req(Reply)))
  {
    DoneNow(cfg, t.snap, sh, t.(pc := Marking(Storage, GetWant)));
    DoneNow(cfg, t.snap, sh, t.(pc := Req(Reply)));
    if t.status != OK && Settled(sh, Storage) {
      DoneAssertion(cfg, sh, t.(pc := Req(Reply)));
    }
  }

  lemma PutBytesKeeps(cfg: Config, sh: Shared, t: Thread)
    requires t.pc == Section(PutBytes) && Base(cfg, sh) && SectionAssertion(cfg, sh, t, PutBytes)
    ensures Kept(cfg, sh, t, FileStep(cfg, sh, t))
  {
    var (sh', t') := SectionStep(cfg, sh, t, PutBytes);
    PutIsRecorded(cfg, sh, t.client, t.req);
    PutIsDone(cfg, sh, t, sh', t');
    StoredAssertion(cfg, sh', t');
  }

  lemma GetMarkKeeps(cfg: Config, sh: Shared, t: Thread, k: Mark)
    requires MarkAssertion(cfg, sh, t, k, GetMark)
    ensures Assertion(cfg, sh, t.(seen := MarkOf(sh, k), pc := Marking(k, GetRel)))
  {
    DoneNow(cfg, t.snap, sh, t.(seen := MarkOf(sh, k), pc := Marking(k, GetRel)));
  }

  lemma CompareKeeps(cfg: Config, sh: Shared, t: Thread, k: Mark)
    requires MarkAssertion(cfg, sh, t, k, Compare)
    ensures var now := Level(sh.files, k);
            Assertion(cfg, sh, t.(now := now, pc := if now > t.seen then Marking(k, SetWant) else AfterMark(k)))
  {
    var now := Level(sh.files, k);
    var t' := t.(now := now, pc := if now > t.seen then Marking(k, SetWant) else AfterMark(k));
    DoneNow(cfg, t.snap, sh, t');
    if now <= t.seen {
      DoneAssertion(cfg, sh, t');
    }
  }

  lemma SetMarkKeeps(cfg: Config, sh: Shared, t: Thread, k: Mark)
    requires Base(cfg, sh) && MarkAssertion(cfg, sh, t, k, SetMark)
    ensures var sh' := if k == NumFile then sh.(maxNum := t.now) else sh.(maxSize := t.now);
            Base(cfg, sh') && Assertion(cfg, sh', t.(pc := Marking(k, SetRel)))
  {
    var sh' := if k == NumFile then sh.(maxNum := t.now) else sh.(maxSize := t.now);
    DoneNow(cfg, t.snap, sh', t.(pc := Marking(k, SetRel)));
  }

  lemma MarkStepKeeps(cfg: Config, sh: Shared, t: Thread, k: Mark, m: MarkPC)
    requires t.pc == Marking(k, m) && FetchMarking(k, m).FileOp? && Base(cfg, sh) && Assertion(cfg, sh, t)
    ensures Kept(cfg, sh, t, FileStep(cfg, sh, t))
  {
    match m
    case GetMark => GetMarkKeeps(cfg, sh, t, k);
    case Compare => CompareKeeps(cfg, sh, t, k);
    case SetMark => SetMarkKeeps(cfg, sh, t, k);
  }

  lemma SectionStepKeeps(cfg: Config, sh: Shared, t: Thread, s: SectionPC)
    requires t.pc == Section(s) && FetchSection(s).FileOp? && Base(cfg, sh) && Assertion(cfg, sh, t)
    ensures Kept(cfg, sh, t, FileStep(cfg, sh, t))
  {
    match s
    case Room => RoomKeeps(cfg, sh, t);
    case Evicting => EvictingKeeps(cfg, sh, t);
    case CheckOwner => CheckOwnerKeeps(cfg, sh, t);
    case PutBytes => PutBytesKeeps(cfg, sh, t);
    case Inc =>
  }

  lemma ReqStepKeeps(cfg: Config, sh: Shared, t: Thread, r: ReqPC)
    requires t.pc == Req(r) && FetchReq(r).FileOp? && Base(cfg, sh) && Assertion(cfg, sh, t)
    ensures Kept(cfg, sh, t, FileStep(cfg, sh, t))
  {
    if r.Simple? { SimpleKeeps(cfg, sh, t); } else { DispatchKeeps(cfg, sh, t); }
  }

  lemma LockStepKeeps(cfg: Config, sh: Shared, t: Thread, l: LockPC)
    requires t.pc == Locking(l) && FetchLocking(l).FileOp? && Base(cfg, sh) && Assertion(cfg, sh, t)
    ensures Kept(cfg, sh, t, FileStep(cfg, sh, t))
  {
    if l.Try? { TryKeeps(cfg, sh, t); } else { DoUnlockKeeps(cfg, sh, t); }
  }

  /** Every access keeps the invariant of the shared data and leads to the next assertion. */
  lemma FileStepKeeps(cfg: Config, sh: Shared, t: Thread)
    requires Fetch(t.pc).FileOp? && Base(cfg, sh) && Assertion(cfg, sh, t)
    ensures Kept(cfg, sh, t, FileStep(cfg, sh, t))
  {
    if t.pc.Req? {
      ReqStepKeeps(cfg, sh, t, t.pc.r);
    } else if t.pc.Locking? {
      LockStepKeeps(cfg, sh, t, t.pc.l);
    } else if t.pc.Section? {
      SectionStepKeeps(cfg, sh, t, t.pc.s);
    } else {
      MarkStepKeeps(cfg, sh, t, t.pc.k, t.pc.m);
    }
  }
}
