/** Runs made of stretches in which only one thread moves: it is seen alone with the shared data and the
    mutexes, and does what the program says as long as no mutex it wants is taken. */
module SoloRuns {
  import opened Files
  import opened EventLog
  import opened LogTheorems
  import opened Operations
  import opened Server
  import opened ServerWakeup

  // ----- Reachable states -----

  ghost predicate Passes(tr: seq<State>, s: State) {
    exists k :: 0 <= k < |tr| && tr[k] == s
  }

  /** A run that ends in `s` and passes through `from`. */
  ghost predicate Story(cfg: Config, from: State, tr: seq<State>, mv: seq<Move>, s: State) {
    IsRun(cfg, tr, mv) && tr[|mv|] == s && Passes(tr, from)
  }

  ghost predicate Reachable(cfg: Config, from: State, s: State) {
    exists tr, mv :: Story(cfg, from, tr, mv, s)
  }

  lemma Extended(cfg: Config, tr: seq<State>, mv: seq<Move>, m: Move, s': State)
    requires IsRun(cfg, tr, mv) && IsStep(cfg, tr[|mv|], m, s') && SoundRequest(cfg, m.ch.req)
    ensures IsRun(cfg, tr + [s'], mv + [m])
  {
    forall k: nat | k < |mv| + 1 ensures StepAt(cfg, tr + [s'], mv + [m], k) {
      assert k < |mv| ==> StepAt(cfg, tr, mv, k);
    }
  }

  lemma StillPasses(tr: seq<State>, s: State, s': State)
    requires Passes(tr, s)
    ensures Passes(tr + [s'], s)
  {
    var k :| 0 <= k < |tr| && tr[k] == s;
    assert (tr + [s'])[k] == s;
  }

  lemma ReachableNext(cfg: Config, from: State, s: State, m: Move, s': State)
    requires Reachable(cfg, from, s) && IsStep(cfg, s, m, s') && SoundRequest(cfg, m.ch.req)
    ensures Reachable(cfg, from, s')
  {
    var tr, mv :| Story(cfg, from, tr, mv, s);
    Extended(cfg, tr, mv, m, s');
    StillPasses(tr, from, s');
    assert Story(cfg, from, tr + [s'], mv + [m], s');
  }

  lemma ReachableStart(cfg: Config, s: State)
    requires Init(s)
    ensures Reachable(cfg, s, s)
  {
    assert [s][0] == s;
    assert Story(cfg, s, [s], [], s);
  }

  /** A state that has been reached can be passed on the way to others. */
  lemma ReachableHere(cfg: Config, from: State, s: State)
    requires Reachable(cfg, from, s)
    ensures Reachable(cfg, s, s)
  {
    var tr, mv :| Story(cfg, from, tr, mv, s);
    assert tr[|mv|] == s;
    assert Story(cfg, s, tr, mv, s);
  }

  // ----- One thread at a time -----

  /** A thread and all it can touch. */
  datatype View = View(sh: Shared, pool: Pool, holder: map<Mutex, nat>, t: Thread)

  function With(s: State, w: nat, v: View): State
    requires w < |s.threads|
  {
    State(v.sh, v.pool, v.holder, s.threads[w := v.t])
  }

  /** From `s` a run in which only thread `w` moves comes to what `v` says of `w`; nobody waits for a
      connection, so that a signal to the workers wakes none. */
  ghost predicate Comes(cfg: Config, from: State, s: State, w: nat, v: View) {
    && w < |s.threads|
    && (forall j :: 0 <= j < |s.threads| ==> !AsleepOn(s.threads[j], ConnC))
    && Reachable(cfg, from, With(s, w, v))
  }

  /** A choice where there is none to be made. */
  const ANY := Choice(1, Read("/"), 0, false, 0, false, 0, 0)

  function Moved(v: View, w: nat): View {
    match Fetch(v.t.pc)
    case Acquire(m, n) => v.(holder := v.holder[m := w], t := v.t.(pc := n))
    case Release(m, n) => v.(holder := v.holder - {m}, t := v.t.(pc := n))
    case Sleep(_, m, n) => v.(holder := v.holder - {m}, t := v.t.(pc := n))
    case WakeOne(_, n) => v.(t := v.t.(pc := n))
    case Consult(n) => v.(t := v.t.(pc := n))
    case _ => v
  }

  lemma Comes1(cfg: Config, from: State, s: State, w: nat, v: View, ch: Choice, v': View)
    requires Comes(cfg, from, s, w, v) && SoundRequest(cfg, ch.req)
    requires IsStep(cfg, With(s, w, v), Move(w, ch), With(s, w, v'))
    ensures Comes(cfg, from, s, w, v')
  {
    ReachableNext(cfg, from, With(s, w, v), Move(w, ch), With(s, w, v'));
  }

  /** A turn that moves the thread on, or takes or gives a mutex. */
  lemma Hop(cfg: Config, from: State, s: State, w: nat, v: View, v': View)
    requires Comes(cfg, from, s, w, v) && Moves(Fetch(v.t.pc)) && !Fetch(v.t.pc).Asleep? && !Fetch(v.t.pc).WakeAll?
    requires Fetch(v.t.pc).Acquire? ==> Fetch(v.t.pc).m !in v.holder
    requires Fetch(v.t.pc).WakeOne? ==> Fetch(v.t.pc).c == ConnC
    requires v' == Moved(v, w)
    ensures Comes(cfg, from, s, w, v')
  {
    var b := With(s, w, v);
    assert b.threads[w := v'.t] == s.threads[w := v'.t];
    Comes1(cfg, from, s, w, v, ANY, v');
  }

  lemma PoolTurn(cfg: Config, from: State, s: State, w: nat, v: View, ch: Choice, v': View)
    requires Comes(cfg, from, s, w, v) && SoundRequest(cfg, ch.req)
    requires Fetch(v.t.pc).PoolOp? || Fetch(v.t.pc).FromOutside?
    requires v' == v.(pool := v'.pool, t := v'.t) && (v'.pool, v'.t) == PoolStep(v.pool, v.t, ch)
    ensures Comes(cfg, from, s, w, v')
  {
    var b := With(s, w, v);
    assert b.threads[w := v'.t] == s.threads[w := v'.t];
    Comes1(cfg, from, s, w, v, ch, v');
  }

  lemma FileTurn(cfg: Config, from: State, s: State, w: nat, v: View, v': View)
    requires Comes(cfg, from, s, w, v) && Fetch(v.t.pc).FileOp?
    requires v' == v.(sh := v'.sh, t := v'.t) && (v'.sh, v'.t) == FileStep(cfg, v.sh, v.t)
    ensures Comes(cfg, from, s, w, v')
  {
    var b := With(s, w, v);
    assert b.threads[w := v'.t] == s.threads[w := v'.t];
    Comes1(cfg, from, s, w, v, ANY, v');
  }

  // ----- What a thread does when nobody is in its way -----

  const NONE: map<Mutex, nat> := map[]

  function Pushed(pool: Pool, fd: int): Pool {
    pool.(conns := pool.conns + [fd], accepted := pool.accepted + [fd])
  }

  lemma Accepts(cfg: Config, from: State, s: State, v: View, fd: nat)
    requires Comes(cfg, from, s, 0, v) && v.t.pc == Main(MainLoop) && v.holder == NONE && v.pool.accepting
             && !v.pool.closing
    ensures Comes(cfg, from, s, 0, v.(pool := Pushed(v.pool, fd), t := v.t.(fd := fd)))
  {
    var ch := ANY.(fd := fd);
    var selecting := v.(t := v.t.(pc := Main(Selecting)));
    PoolTurn(cfg, from, s, 0, v, ch, selecting);
    var wants := v.(t := v.t.(fd := fd, pc := Main(WantPush)));
    PoolTurn(cfg, from, s, 0, selecting, ch, wants);
    var pushes := wants.(holder := map[ConnM := 0], t := wants.t.(pc := Main(PushConn)));
    Hop(cfg, from, s, 0, wants, pushes);
    Pushes(cfg, from, s, pushes, fd);
  }

  lemma Pushes(cfg: Config, from: State, s: State, v: View, fd: nat)
    requires Comes(cfg, from, s, 0, v) && v.t.pc == Main(PushConn) && v.t.fd == fd && v.holder == map[ConnM := 0]
    ensures Comes(cfg, from, s, 0, v.(pool := Pushed(v.pool, fd), holder := NONE, t := v.t.(pc := Main(MainLoop))))
  {
    var signals := v.(pool := Pushed(v.pool, fd), t := v.t.(pc := Main(SignalConn)));
    PoolTurn(cfg, from, s, 0, v, ANY, signals);
    var releases := signals.(t := v.t.(pc := Main(RelPush)));
    Hop(cfg, from, s, 0, signals, releases);
    assert releases.holder - {ConnM} == NONE;
    Hop(cfg, from, s, 0, releases, releases.(holder := NONE, t := v.t.(pc := Main(MainLoop))));
  }

  /** A worker takes a connection that waits. */
  lemma Connects(cfg: Config, from: State, s: State, w: nat, v: View)
    requires Comes(cfg, from, s, w, v) && v.t.pc == Conn(WantConn) && v.holder == NONE && v.pool.accepting
             && !v.pool.closing
    requires v.pool.conns != [] && v.pool.conns[0] >= 0
    ensures Comes(cfg, from, s, w, v.(pool := v.pool.(conns := v.pool.conns[1..], served := v.pool.served + 1,
                                                connections := v.pool.connections + 1),
                                t := v.t.(fd := v.pool.conns[0], slot := v.pool.served, pc := Conn(ReadReq))))
  {
    var tests := v.(holder := map[ConnM := w], t := v.t.(pc := Conn(TestConn)));
    Hop(cfg, from, s, w, v, tests);
    var flags := tests.(t := v.t.(pc := Conn(FlagTest)));
    PoolTurn(cfg, from, s, w, tests, ANY, flags);
    var pops := tests.(t := v.t.(pc := Conn(PopConn)));
    PoolTurn(cfg, from, s, w, flags, ANY, pops);
    Pops(cfg, from, s, w, pops);
  }

  lemma Pops(cfg: Config, from: State, s: State, w: nat, v: View)
    requires Comes(cfg, from, s, w, v) && v.t.pc == Conn(PopConn) && v.holder == map[ConnM := w]
    requires v.pool.conns != [] && v.pool.conns[0] >= 0
    ensures Comes(cfg, from, s, w, v.(pool := v.pool.(conns := v.pool.conns[1..], served := v.pool.served + 1,
                                                connections := v.pool.connections + 1), holder := NONE,
                                t := v.t.(fd := v.pool.conns[0], slot := v.pool.served, pc := Conn(ReadReq))))
  {
    var popped := v.(pool := v.pool.(conns := v.pool.conns[1..], served := v.pool.served + 1),
                     t := v.t.(fd := v.pool.conns[0], slot := v.pool.served, pc := Conn(RelConn)));
    PoolTurn(cfg, from, s, w, v, ANY, popped);
    var counts := popped.(holder := NONE, t := popped.t.(pc := Conn(WantAdd)));
    assert v.holder - {ConnM} == NONE;
    Hop(cfg, from, s, w, popped, counts);
    Counts(cfg, from, s, w, counts);
  }

  lemma Counts(cfg: Config, from: State, s: State, w: nat, v: View)
    requires Comes(cfg, from, s, w, v) && v.t.pc == Conn(WantAdd) && v.holder == NONE && v.t.fd >= 0
    ensures Comes(cfg, from, s, w, v.(pool := v.pool.(connections := v.pool.connections + 1), t := v.t.(pc := Conn(ReadReq))))
  {
    var adds := v.(holder := map[CountM := w], t := v.t.(pc := Conn(DoAdd)));
    Hop(cfg, from, s, w, v, adds);
    var added := adds.(pool := v.pool.(connections := v.pool.connections + 1), t := v.t.(pc := Conn(RelAdd)));
    PoolTurn(cfg, from, s, w, adds, ANY, added);
    Counted(cfg, from, s, w, added);
  }

  lemma Counted(cfg: Config, from: State, s: State, w: nat, v: View)
    requires Comes(cfg, from, s, w, v) && v.t.pc == Conn(RelAdd) && v.holder == map[CountM := w] && v.t.fd >= 0
    ensures Comes(cfg, from, s, w, v.(holder := NONE, t := v.t.(pc := Conn(ReadReq))))
  {
    var tests := v.(holder := NONE, t := v.t.(pc := Conn(FdTest)));
    assert v.holder - {CountM} == NONE;
    Hop(cfg, from, s, w, v, tests);
    PoolTurn(cfg, from, s, w, tests, ANY, tests.(t := v.t.(pc := Conn(ReadReq))));
  }

  lemma Logs(cfg: Config, from: State, s: State, w: nat, v: View, at: LogSite)
    requires Comes(cfg, from, s, w, v) && v.t.pc == Logging(at, LogWant) && CountM !in v.holder
    ensures Comes(cfg, from, s, w, v.(t := v.t.(pc := AfterLog(at))))
  {
    var consults := v.(holder := v.holder[CountM := w], t := v.t.(pc := Logging(at, LogRead)));
    Hop(cfg, from, s, w, v, consults);
    var releases := consults.(t := v.t.(pc := Logging(at, LogRel)));
    Hop(cfg, from, s, w, consults, releases);
    assert releases.holder - {CountM} == v.holder;
    Hop(cfg, from, s, w, releases, v.(t := v.t.(pc := AfterLog(at))));
  }

  /** A worker reads a request and takes the queue mutex for it. */
  lemma Asks(cfg: Config, from: State, s: State, w: nat, v: View, c: ClientId, req: Request)
    requires Comes(cfg, from, s, w, v) && v.t.pc == Conn(ReadReq) && v.holder == NONE && !v.pool.closing
    requires SoundRequest(cfg, req)
    ensures Comes(cfg, from, s, w, v.(holder := map[QueueM := w],
                                      t := v.t.(client := c, req := req, unset := 0, snap := v.sh.files, status := FAIL,
                                                pc := Route(cfg, req))))
  {
    var ch := ANY.(client := c, req := req);
    var wants := v.(t := v.t.(client := c, req := req, unset := 0, pc := Req(WantQ)));
    if LogsFirst(req) {
      var logs := wants.(t := wants.t.(pc := Logging(BeforeQueue, LogWant)));
      PoolTurn(cfg, from, s, w, v, ch, logs);
      Logs(cfg, from, s, w, logs, BeforeQueue);
    } else {
      PoolTurn(cfg, from, s, w, v, ch, wants);
    }
    Looks(cfg, from, s, w, wants);
  }

  lemma Looks(cfg: Config, from: State, s: State, w: nat, v: View)
    requires Comes(cfg, from, s, w, v) && v.t.pc == Req(WantQ) && v.holder == NONE
    ensures Comes(cfg, from, s, w, v.(holder := map[QueueM := w],
                                      t := v.t.(snap := v.sh.files, status := FAIL, pc := Route(cfg, v.t.req))))
  {
    var looks := v.(holder := map[QueueM := w], t := v.t.(pc := Req(Dispatch)));
    Hop(cfg, from, s, w, v, looks);
    FileTurn(cfg, from, s, w, looks, looks.(t := v.t.(snap := v.sh.files, status := FAIL, pc := Route(cfg, v.t.req))));
  }

  /** A create with the lock flag, up to the mark. */
  lemma Creates(cfg: Config, from: State, s: State, w: nat, v: View, p: Path)
    requires Comes(cfg, from, s, w, v) && v.t.pc == Locking(WantL) && v.holder == map[QueueM := w]
    requires v.t.req == Open(p, true, true) && !Has(v.sh.files, p) && |v.sh.files| < cfg.maxFile
    ensures Comes(cfg, from, s, w, v.(sh := Record(v.sh, v.sh.files + [File(p, [], v.t.client, true)],
                                             [Created(p, v.t.client, v.t.client)]),
                                holder := map[QueueM := w, LockM := w],
                                t := v.t.(status := OK, pc := Marking(NumFile, GetWant))))
  {
    var tries := v.(holder := map[QueueM := w, LockM := w], t := v.t.(pc := Locking(Try)));
    Hop(cfg, from, s, w, v, tries);
    FileTurn(cfg, from, s, w, tries, tries.(sh := Record(v.sh, v.sh.files + [File(p, [], v.t.client, true)],
                                                   [Created(p, v.t.client, v.t.client)]),
                                      t := v.t.(status := OK, pc := Marking(NumFile, GetWant))));
  }

  lemma GetsMark(cfg: Config, from: State, s: State, w: nat, v: View, k: Mark)
    requires Comes(cfg, from, s, w, v) && v.t.pc == Marking(k, GetWant) && StatsM !in v.holder
    ensures Comes(cfg, from, s, w, v.(t := v.t.(seen := MarkOf(v.sh, k), pc := Marking(k, Compare))))
  {
    var gets := v.(holder := v.holder[StatsM := w], t := v.t.(pc := Marking(k, GetMark)));
    Hop(cfg, from, s, w, v, gets);
    var got := gets.(t := v.t.(seen := MarkOf(v.sh, k), pc := Marking(k, GetRel)));
    FileTurn(cfg, from, s, w, gets, got);
    assert got.holder - {StatsM} == v.holder;
    Hop(cfg, from, s, w, got, v.(t := got.t.(pc := Marking(k, Compare))));
  }

  function Raised(sh: Shared, k: Mark): Shared {
    if k == NumFile then sh.(maxNum := Level(sh.files, k)) else sh.(maxSize := Level(sh.files, k))
  }

  lemma RaisesMark(cfg: Config, from: State, s: State, w: nat, v: View, k: Mark)
    requires Comes(cfg, from, s, w, v) && v.t.pc == Marking(k, Compare) && StatsM !in v.holder
    requires Level(v.sh.files, k) > v.t.seen
    ensures Comes(cfg, from, s, w, v.(sh := Raised(v.sh, k), t := v.t.(now := Level(v.sh.files, k), pc := AfterMark(k))))
  {
    var wants := v.(t := v.t.(now := Level(v.sh.files, k), pc := Marking(k, SetWant)));
    FileTurn(cfg, from, s, w, v, wants);
    var sets := wants.(holder := v.holder[StatsM := w], t := wants.t.(pc := Marking(k, SetMark)));
    Hop(cfg, from, s, w, wants, sets);
    var done := sets.(sh := Raised(v.sh, k), t := wants.t.(pc := Marking(k, SetRel)));
    FileTurn(cfg, from, s, w, sets, done);
    assert done.holder - {StatsM} == v.holder;
    Hop(cfg, from, s, w, done, done.(holder := v.holder, t := wants.t.(pc := AfterMark(k))));
  }

  lemma GivesLock(cfg: Config, from: State, s: State, w: nat, v: View)
    requires Comes(cfg, from, s, w, v) && v.t.pc == Locking(RelL) && v.holder == map[QueueM := w, LockM := w]
    ensures Comes(cfg, from, s, w, v.(holder := map[QueueM := w], t := v.t.(pc := Req(Reply))))
  {
    var replies := v.(holder := map[QueueM := w], t := v.t.(pc := Req(Reply)));
    assert v.holder - {LockM} == replies.holder;
    Hop(cfg, from, s, w, v, replies);
  }

  lemma Answers(cfg: Config, from: State, s: State, w: nat, v: View)
    requires Comes(cfg, from, s, w, v) && v.t.pc == Req(Reply) && v.holder == map[QueueM := w]
    ensures Comes(cfg, from, s, w, v.(holder := NONE, t := v.t.(pc := Conn(ReadReq))))
  {
    assert v.holder - {QueueM} == NONE;
    Hop(cfg, from, s, w, v, v.(holder := NONE, t := v.t.(pc := Conn(ReadReq))));
  }

  /** A lock that has to wait. */
  lemma FallsAsleep(cfg: Config, from: State, s: State, w: nat, v: View, p: Path)
    requires Comes(cfg, from, s, w, v) && v.t.pc == Locking(WantL) && v.holder == map[QueueM := w]
    requires v.t.req == Lock(p) && Blocked(v.sh.files, p, v.t.client)
    ensures Comes(cfg, from, s, w, v.(holder := NONE, t := v.t.(status := WAIT, pc := Locking(AsleepL))))
  {
    var tries := v.(holder := map[QueueM := w, LockM := w], t := v.t.(pc := Locking(Try)));
    Hop(cfg, from, s, w, v, tries);
    var drops := tries.(t := v.t.(status := WAIT, pc := Locking(DropQ)));
    FileTurn(cfg, from, s, w, tries, drops);
    var waits := drops.(holder := map[LockM := w], t := drops.t.(pc := Locking(WaitL)));
    assert drops.holder - {QueueM} == waits.holder;
    Hop(cfg, from, s, w, drops, waits);
    assert waits.holder - {LockM} == NONE;
    Hop(cfg, from, s, w, waits, waits.(holder := NONE, t := drops.t.(pc := Locking(AsleepL))));
  }

  /** A lock that need not wait. */
  lemma Locks(cfg: Config, from: State, s: State, w: nat, v: View, p: Path, k: nat)
    requires Comes(cfg, from, s, w, v) && v.t.pc == Locking(WantL) && v.holder == map[QueueM := w] && v.t.req == Lock(p)
    requires Names(v.sh.files, k, p) && v.sh.files[k].open && v.sh.files[k].owner == 0
    ensures Comes(cfg, from, s, w, v.(sh := Record(v.sh, v.sh.files[k := v.sh.files[k].(owner := v.t.client)],
                                                   [Locked(p, v.t.client)]),
                                      holder := map[QueueM := w, LockM := w],
                                      t := v.t.(status := OK, pc := Locking(RelL))))
  {
    var tries := v.(holder := map[QueueM := w, LockM := w], t := v.t.(pc := Locking(Try)));
    Hop(cfg, from, s, w, v, tries);
    FindUnique(v.sh.files, k);
    FileTurn(cfg, from, s, w, tries, tries.(sh := Record(v.sh, v.sh.files[k := v.sh.files[k].(owner := v.t.client)],
                                                         [Locked(p, v.t.client)]),
                                            t := v.t.(status := OK, pc := Locking(RelL))));
  }

  /** The owner's unlock, up to the broadcast. */
  lemma Unlocks(cfg: Config, from: State, s: State, w: nat, v: View, p: Path, k: nat)
    requires Comes(cfg, from, s, w, v) && v.t.pc == Locking(DoUnlock) && v.holder == map[QueueM := w]
    requires v.t.req == Unlock(p) && Names(v.sh.files, k, p) && v.sh.files[k].open && v.sh.files[k].owner == v.t.client
    ensures Comes(cfg, from, s, w, v.(sh := Record(v.sh, v.sh.files[k := v.sh.files[k].(owner := 0)],
                                                   [Unlocked(p, v.t.client)]),
                                      holder := map[QueueM := w, LockM := w],
                                      t := v.t.(status := OK, pc := Locking(BcastL))))
  {
    FindUnique(v.sh.files, k);
    var wants := v.(sh := Record(v.sh, v.sh.files[k := v.sh.files[k].(owner := 0)], [Unlocked(p, v.t.client)]),
                    t := v.t.(status := OK, pc := Locking(WantLB)));
    FileTurn(cfg, from, s, w, v, wants);
    Hop(cfg, from, s, w, wants, wants.(holder := map[QueueM := w, LockM := w], t := wants.t.(pc := Locking(BcastL))));
  }

  /** A woken worker, up to taking the lock mutex again. */
  lemma Retests(cfg: Config, from: State, s: State, w: nat, v: View)
    requires Comes(cfg, from, s, w, v) && v.t.pc == Locking(WokenL) && v.holder == NONE
    ensures Comes(cfg, from, s, w, v.(holder := map[QueueM := w],
                                      t := v.t.(snap := v.sh.files, status := FAIL, pc := Route(cfg, v.t.req))))
  {
    var drops := v.(holder := map[LockM := w], t := v.t.(pc := Locking(DropL)));
    Hop(cfg, from, s, w, v, drops);
    assert drops.holder - {LockM} == NONE;
    var wants := v.(t := v.t.(pc := Req(WantQ)));
    Hop(cfg, from, s, w, drops, wants);
    Looks(cfg, from, s, w, wants);
  }

  /** The holder's write of one byte, for which there is room, up to receiving it. */
  lemma FindsRoom(cfg: Config, from: State, s: State, w: nat, v: View, k: nat)
    requires Comes(cfg, from, s, w, v) && v.t.pc == Section(SectionPC.Room) && v.holder == map[QueueM := w]
    requires v.t.req.Write? && |v.t.req.data| == 1 <= Free(cfg, v.sh.files)
    requires Names(v.sh.files, k, v.t.req.path) && v.sh.files[k].owner == v.t.client
    ensures Comes(cfg, from, s, w, v.(t := v.t.(left := 1, pc := Section(Receive))))
  {
    var logs := v.(t := v.t.(pc := Logging(RoomFound, LogWant)));
    FileTurn(cfg, from, s, w, v, logs);
    Logs(cfg, from, s, w, logs, RoomFound);
    var checks := v.(t := v.t.(pc := Section(CheckOwner)));
    FindUnique(v.sh.files, k);
    FileTurn(cfg, from, s, w, checks, v.(t := v.t.(left := 1, pc := Section(Receive))));
  }

  lemma ReceivesByte(cfg: Config, from: State, s: State, w: nat, v: View)
    requires Comes(cfg, from, s, w, v) && v.t.pc == Section(Receive) && v.t.left == 1
    ensures Comes(cfg, from, s, w, v.(t := v.t.(left := 0, pc := Section(PutBytes))))
  {
    var b, v' := With(s, w, v), v.(t := v.t.(left := 0, pc := Section(PutBytes)));
    assert b.threads[w := v'.t] == s.threads[w := v'.t];
    Comes1(cfg, from, s, w, v, ANY.(piece := 1), v');
  }

  lemma Stores(cfg: Config, from: State, s: State, w: nat, v: View, k: nat)
    requires Comes(cfg, from, s, w, v) && v.t.pc == Section(PutBytes) && v.t.req.Write?
    requires Names(v.sh.files, k, v.t.req.path) && v.sh.files[k].open
    ensures Comes(cfg, from, s, w, v.(sh := Record(v.sh, v.sh.files[k := v.sh.files[k].(bytes := v.t.req.data)],
                                                   [Wrote(v.t.req.path, v.t.client, v.t.req.data)]),
                                      t := v.t.(status := OK, pc := Marking(Storage, GetWant))))
  {
    FindUnique(v.sh.files, k);
    FileTurn(cfg, from, s, w, v, v.(sh := Record(v.sh, v.sh.files[k := v.sh.files[k].(bytes := v.t.req.data)],
                                                 [Wrote(v.t.req.path, v.t.client, v.t.req.data)]),
                                    t := v.t.(status := OK, pc := Marking(Storage, GetWant))));
  }
}
