/** Three runs of the server, each from its start. A create and then a write are both answered with success;
    a worker that sleeps for a file lock gets it when it is given back; and one is left behind for good,
    because the file it sleeps for is deleted. */
module WitnessRuns {
  import opened Files
  import opened EventLog
  import opened LogTheorems
  import opened Operations
  import opened Server
  import opened ServerWakeup
  import opened SoloRuns

  const SMALL := Config(10, 5)

  function Idle(pc: PC): Thread {
    Thread(pc, 1, Read("/"), OK, [], 0, 0, 0, 0, 0, 0, 0)
  }

  /** The main thread, the signal thread and two workers. */
  function Scene(sh: Shared, pool: Pool, holder: map<Mutex, nat>, fd: int, a: Thread, b: Thread): State {
    State(sh, pool, holder, [Idle(Main(MainLoop)).(fd := fd), Idle(Signal(Sigwait)), a, b])
  }

  /** Worker `w` goes on from `s`. */
  lemma Resume(from: State, s: State, w: nat, v: View)
    requires Reachable(SMALL, from, s) && w < |s.threads| && v == View(s.sh, s.pool, s.holder, s.threads[w])
    requires forall j :: 0 <= j < |s.threads| ==> !AsleepOn(s.threads[j], ConnC)
    ensures Comes(SMALL, from, s, w, v)
  {
    assert With(s, w, v) == s;
  }

  // ----- Two clients connect, and the first creates a file -----

  const EMPTY := Shared([], [], 0, 0, 0)
  const MADE := Shared([File("/a", [], 1, true)], [Created("/a", 1, 1)], 1, 0, 0)
  const WAITING := Pool([5, 6], [5, 6], 0, true, false, 0)
  const CONNECTED := Pool([], [5, 6], 2, true, false, 2)

  const NEW := Idle(Conn(WantConn))
  const SECOND := Idle(Conn(ReadReq)).(fd := 5)
  const FIRST := Idle(Conn(ReadReq)).(fd := 6, slot := 1)
  const MAKER := FIRST.(req := Open("/a", true, true), now := 1)
  const CREATOR := MAKER.(now := 0, pc := Marking(NumFile, GetWant))

  const START := Scene(EMPTY, Pool([], [], 0, true, false, 0), NONE, 0, NEW, NEW)

  lemma BothAccepted()
    ensures Reachable(SMALL, START, Scene(EMPTY, WAITING, NONE, 6, NEW, NEW))
  {
    ReachableStart(SMALL, START);
    var v := View(EMPTY, START.pool, NONE, Idle(Main(MainLoop)));
    Resume(START, START, 0, v);
    Accepts(SMALL, START, START, v, 5);
    assert Pushed(START.pool, 5) == Pool([5], [5], 0, true, false, 0);
    var v1 := v.(pool := Pool([5], [5], 0, true, false, 0), t := v.t.(fd := 5));
    Accepts(SMALL, START, START, v1, 6);
    assert Pushed(v1.pool, 6) == WAITING;
    assert With(START, 0, View(EMPTY, WAITING, NONE, v.t.(fd := 6))) == Scene(EMPTY, WAITING, NONE, 6, NEW, NEW);
  }

  lemma BothConnected()
    ensures Reachable(SMALL, START, Scene(EMPTY, CONNECTED, NONE, 6, SECOND, FIRST))
  {
    var s := Scene(EMPTY, WAITING, NONE, 6, NEW, NEW);
    BothAccepted();
    Resume(START, s, 2, View(EMPTY, WAITING, NONE, NEW));
    Connects(SMALL, START, s, 2, View(EMPTY, WAITING, NONE, NEW));
    var half := Pool([6], [5, 6], 1, true, false, 1);
    assert WAITING.conns[1..] == [6];
    var s1 := Scene(EMPTY, half, NONE, 6, SECOND, NEW);
    assert With(s, 2, View(EMPTY, half, NONE, SECOND)) == s1;
    Resume(START, s1, 3, View(EMPTY, half, NONE, NEW));
    Connects(SMALL, START, s1, 3, View(EMPTY, half, NONE, NEW));
    assert half.conns[1..] == [];
    assert With(s1, 3, View(EMPTY, CONNECTED, NONE, FIRST)) == Scene(EMPTY, CONNECTED, NONE, 6, SECOND, FIRST);
  }

  lemma FileCreated(s: State)
    requires s == Scene(EMPTY, CONNECTED, NONE, 6, SECOND, FIRST)
    ensures Comes(SMALL, START, s, 3, View(MADE.(maxNum := 0), CONNECTED, map[QueueM := 3, LockM := 3], CREATOR))
  {
    BothConnected();
    var v := View(EMPTY, CONNECTED, NONE, FIRST);
    Resume(START, s, 3, v);
    Asks(SMALL, START, s, 3, v, 1, MAKER.req);
    var asked := v.(holder := map[QueueM := 3], t := v.t.(req := MAKER.req, status := FAIL, pc := Locking(WantL)));
    Creates(SMALL, START, s, 3, asked, "/a");
    assert EMPTY.files + MADE.files == MADE.files && EMPTY.log + MADE.log == MADE.log;
  }

  const CREATE_ANSWERED := Scene(MADE, CONNECTED, map[QueueM := 3], 6, SECOND, MAKER.(pc := Req(Reply)))

  lemma CreateAnswered()
    ensures Reachable(SMALL, START, CREATE_ANSWERED)
  {
    var s := Scene(EMPTY, CONNECTED, NONE, 6, SECOND, FIRST);
    FileCreated(s);
    var v := View(MADE.(maxNum := 0), CONNECTED, map[QueueM := 3, LockM := 3], CREATOR);
    GetsMark(SMALL, START, s, 3, v, NumFile);
    RaisesMark(SMALL, START, s, 3, v.(t := CREATOR.(pc := Marking(NumFile, Compare))), NumFile);
    GivesLock(SMALL, START, s, 3, v.(sh := MADE, t := MAKER.(pc := Locking(RelL))));
    assert With(s, 3, View(MADE, CONNECTED, map[QueueM := 3], MAKER.(pc := Req(Reply)))) == CREATE_ANSWERED;
  }

  const CREATED := Scene(MADE, CONNECTED, NONE, 6, SECOND, MAKER)

  lemma CreateDone()
    ensures Reachable(SMALL, CREATE_ANSWERED, CREATED)
  {
    CreateAnswered();
    ReachableHere(SMALL, START, CREATE_ANSWERED);
    var v := View(MADE, CONNECTED, map[QueueM := 3], MAKER.(pc := Req(Reply)));
    Resume(CREATE_ANSWERED, CREATE_ANSWERED, 3, v);
    Answers(SMALL, CREATE_ANSWERED, CREATE_ANSWERED, 3, v);
    assert With(CREATE_ANSWERED, 3, View(MADE, CONNECTED, NONE, MAKER)) == CREATED;
  }

  // ----- The write that follows -----

  const WRITER := MAKER.(req := Write("/a", [7]), status := FAIL, snap := MADE.files, pc := Section(SectionPC.Room))
  const STORED := Shared([File("/a", [7], 1, true)], [Created("/a", 1, 1), Wrote("/a", 1, [7])], 1, 0, 0)
  const WROTE := WRITER.(status := OK, pc := Req(Reply))
  const WRITE_ANSWERED := Scene(STORED.(maxSize := 1), CONNECTED, map[QueueM := 3], 6, SECOND, WROTE)

  lemma ByteReceived()
    ensures Comes(SMALL, CREATE_ANSWERED, CREATED, 3,
                  View(MADE, CONNECTED, map[QueueM := 3], WRITER.(pc := Section(PutBytes))))
  {
    CreateDone();
    var v := View(MADE, CONNECTED, NONE, MAKER);
    Resume(CREATE_ANSWERED, CREATED, 3, v);
    Asks(SMALL, CREATE_ANSWERED, CREATED, 3, v, 1, WRITER.req);
    var asked := View(MADE, CONNECTED, map[QueueM := 3], WRITER);
    assert Total(MADE.files) == TotalTo(MADE.files, 0) + 0;
    FindsRoom(SMALL, CREATE_ANSWERED, CREATED, 3, asked, 0);
    ReceivesByte(SMALL, CREATE_ANSWERED, CREATED, 3, asked.(t := WRITER.(left := 1, pc := Section(Receive))));
  }

  lemma ByteStored()
    ensures Comes(SMALL, CREATE_ANSWERED, CREATED, 3,
                  View(STORED, CONNECTED, map[QueueM := 3], WROTE.(pc := Marking(Storage, GetWant))))
  {
    ByteReceived();
    Stores(SMALL, CREATE_ANSWERED, CREATED, 3, View(MADE, CONNECTED, map[QueueM := 3], WRITER.(pc := Section(PutBytes))), 0);
    assert MADE.files[0 := MADE.files[0].(bytes := [7])] == STORED.files;
    assert MADE.log + [Wrote("/a", 1, [7])] == STORED.log;
  }

  lemma WriteAnswered()
    ensures Reachable(SMALL, CREATE_ANSWERED, WRITE_ANSWERED)
  {
    ByteStored();
    var v := View(STORED, CONNECTED, map[QueueM := 3], WROTE.(pc := Marking(Storage, GetWant)));
    GetsMark(SMALL, CREATE_ANSWERED, CREATED, 3, v, Storage);
    assert Total(STORED.files) == TotalTo(STORED.files, 0) + 1;
    RaisesMark(SMALL, CREATE_ANSWERED, CREATED, 3, v.(t := WROTE.(pc := Marking(Storage, Compare))), Storage);
    assert With(CREATED, 3, View(STORED.(maxSize := 1), CONNECTED, map[QueueM := 3], WROTE)) == WRITE_ANSWERED;
  }

  /** In state `k` worker `w` answers the request of client `c` with `status`. */
  ghost predicate AnswersAt(tr: seq<State>, k: int, w: nat, c: ClientId, req: Request, status: int) {
    && 0 <= k < |tr| && w < |tr[k].threads| && tr[k].threads[w].pc == Req(Reply)
    && tr[k].threads[w].client == c && tr[k].threads[w].req == req && tr[k].threads[w].status == status
  }

  /** Client 1 creates "/a", is answered with success in state `a`, writes it, and is answered with success in
      state `b`, when the table holds exactly the data. */
  ghost predicate CreatesThenWrites(tr: seq<State>, mv: seq<Move>, a: int, b: int) {
    && IsRun(SMALL, tr, mv) && a < b
    && AnswersAt(tr, a, 3, 1, Open("/a", true, true), OK)
    && AnswersAt(tr, b, 3, 1, Write("/a", [7]), OK)
    && tr[b].sh.files == [File("/a", [7], 1, true)]
  }

  /** There is such a run. */
  lemma CreateAndWriteAreAnswered()
    ensures exists tr, mv, a, b :: CreatesThenWrites(tr, mv, a, b)
  {
    WriteAnswered();
    var tr, mv :| Story(SMALL, CREATE_ANSWERED, tr, mv, WRITE_ANSWERED);
    var a :| 0 <= a < |tr| && tr[a] == CREATE_ANSWERED;
    assert CREATE_ANSWERED.threads[3].req.Open? && WRITE_ANSWERED.threads[3].req.Write?;
    assert CreatesThenWrites(tr, mv, a, |mv|);
  }

  // ----- The second client waits for the lock -----

  const SLEEPER := SECOND.(client := 2, req := Lock("/a"), status := WAIT, snap := MADE.files, pc := Locking(AsleepL))
  const ASLEEP := Scene(MADE, CONNECTED, NONE, 6, SLEEPER, MAKER)

  lemma SecondSleeps()
    ensures Reachable(SMALL, CREATE_ANSWERED, ASLEEP)
  {
    CreateDone();
    var v := View(MADE, CONNECTED, NONE, SECOND);
    Resume(CREATE_ANSWERED, CREATED, 2, v);
    Asks(SMALL, CREATE_ANSWERED, CREATED, 2, v, 2, Lock("/a"));
    FindUnique(MADE.files, 0);
    FallsAsleep(SMALL, CREATE_ANSWERED, CREATED, 2,
                v.(holder := map[QueueM := 2], t := SLEEPER.(status := FAIL, pc := Locking(WantL))), "/a");
    assert With(CREATED, 2, View(MADE, CONNECTED, NONE, SLEEPER)) == ASLEEP;
  }

  // ----- It gets the lock -----

  const FREED := Shared([File("/a", [], 0, true)], [Created("/a", 1, 1), Unlocked("/a", 1)], 1, 0, 0)
  const UNLOCKER := MAKER.(req := Unlock("/a"), snap := MADE.files, pc := Locking(BcastL))
  const WOKEN := SLEEPER.(pc := Locking(WokenL))
  const UNLOCKED := Scene(FREED, CONNECTED, map[QueueM := 3, LockM := 3], 6, SLEEPER, UNLOCKER)
  const TOLD := Scene(FREED, CONNECTED, map[QueueM := 3, LockM := 3], 6, WOKEN, UNLOCKER.(pc := Locking(RelL)))

  lemma FirstUnlocks()
    ensures Reachable(SMALL, ASLEEP, UNLOCKED)
  {
    SecondSleeps();
    ReachableHere(SMALL, CREATE_ANSWERED, ASLEEP);
    var v := View(MADE, CONNECTED, NONE, MAKER);
    Resume(ASLEEP, ASLEEP, 3, v);
    Asks(SMALL, ASLEEP, ASLEEP, 3, v, 1, Unlock("/a"));
    Unlocks(SMALL, ASLEEP, ASLEEP, 3,
            v.(holder := map[QueueM := 3], t := UNLOCKER.(status := FAIL, pc := Locking(DoUnlock))), "/a", 0);
    assert MADE.files[0 := MADE.files[0].(owner := 0)] == FREED.files;
    assert MADE.log + [Unlocked("/a", 1)] == FREED.log;
    assert With(ASLEEP, 3, View(FREED, CONNECTED, map[QueueM := 3, LockM := 3], UNLOCKER)) == UNLOCKED;
  }

  lemma BroadcastFires()
    ensures IsStep(SMALL, UNLOCKED, Move(3, ANY), TOLD)
  {
    var s' := Fire(SMALL, UNLOCKED, 3, ANY);
    forall j | 0 <= j < 4 ensures s'.threads[j] == TOLD.threads[j] {
      assert j == 0 || j == 1 || j == 2 || j == 3;
    }
  }

  lemma FirstIsDone()
    ensures Reachable(SMALL, ASLEEP, Scene(FREED, CONNECTED, NONE, 6, WOKEN, UNLOCKER.(pc := Conn(ReadReq))))
  {
    FirstUnlocks();
    BroadcastFires();
    ReachableNext(SMALL, ASLEEP, UNLOCKED, Move(3, ANY), TOLD);
    var v := View(FREED, CONNECTED, map[QueueM := 3, LockM := 3], UNLOCKER.(pc := Locking(RelL)));
    Resume(ASLEEP, TOLD, 3, v);
    GivesLock(SMALL, ASLEEP, TOLD, 3, v);
    Answers(SMALL, ASLEEP, TOLD, 3, v.(holder := map[QueueM := 3], t := UNLOCKER.(pc := Req(Reply))));
    assert With(TOLD, 3, View(FREED, CONNECTED, NONE, UNLOCKER.(pc := Conn(ReadReq))))
           == Scene(FREED, CONNECTED, NONE, 6, WOKEN, UNLOCKER.(pc := Conn(ReadReq)));
  }

  const TAKEN := Shared([File("/a", [], 2, true)], FREED.log + [Locked("/a", 2)], 1, 0, 0)
  const LOCKER := WOKEN.(status := OK, snap := FREED.files, pc := Req(Reply))
  const LOCK_ANSWERED := Scene(TAKEN, CONNECTED, map[QueueM := 2], 6, LOCKER, UNLOCKER.(pc := Conn(ReadReq)))

  lemma SecondLocks()
    ensures Reachable(SMALL, ASLEEP, LOCK_ANSWERED)
  {
    var s := Scene(FREED, CONNECTED, NONE, 6, WOKEN, UNLOCKER.(pc := Conn(ReadReq)));
    FirstIsDone();
    var v := View(FREED, CONNECTED, NONE, WOKEN);
    Resume(ASLEEP, s, 2, v);
    Retests(SMALL, ASLEEP, s, 2, v);
    Locks(SMALL, ASLEEP, s, 2, v.(holder := map[QueueM := 2], t := LOCKER.(status := FAIL, pc := Locking(WantL))), "/a", 0);
    assert FREED.files[0 := FREED.files[0].(owner := 2)] == TAKEN.files;
    GivesLock(SMALL, ASLEEP, s, 2,
              View(TAKEN, CONNECTED, map[QueueM := 2, LockM := 2], LOCKER.(pc := Locking(RelL))));
    assert With(s, 2, View(TAKEN, CONNECTED, map[QueueM := 2], LOCKER)) == LOCK_ANSWERED;
  }

  /** In state `a` client 2's worker sleeps for "/a", and in state `b` it answers its client that it has it. */
  ghost predicate SleepsThenLocks(tr: seq<State>, mv: seq<Move>, a: int, b: int) {
    && IsRun(SMALL, tr, mv) && 0 <= a < b
    && AnswersAt(tr, b, 2, 2, Lock("/a"), OK)
    && WaitsFor(tr[a], 2, "/a") && tr[a].threads[2].pc == Locking(AsleepL)
    && tr[b].sh.files == [File("/a", [], 2, true)]
  }

  /** There is such a run. */
  lemma SleeperGetsLock()
    ensures exists tr, mv, a, b :: SleepsThenLocks(tr, mv, a, b)
  {
    SecondLocks();
    var tr, mv :| Story(SMALL, ASLEEP, tr, mv, LOCK_ANSWERED);
    var a :| 0 <= a < |tr| && tr[a] == ASLEEP;
    assert ASLEEP.threads[2].pc == Locking(AsleepL) && LOCK_ANSWERED.threads[2].pc == Req(Reply);
    assert SleepsThenLocks(tr, mv, a, |mv|);
  }

  // ----- Or it is left behind -----

  const REMOVER := MAKER.(req := Delete("/a"), status := FAIL, snap := MADE.files, pc := Req(Simple))
  const DELETING := Scene(MADE, CONNECTED, map[QueueM := 3], 6, SLEEPER, REMOVER)

  lemma DeleteComes()
    ensures Reachable(SMALL, CREATE_ANSWERED, DELETING)
  {
    SecondSleeps();
    var v := View(MADE, CONNECTED, NONE, MAKER);
    Resume(CREATE_ANSWERED, ASLEEP, 3, v);
    Asks(SMALL, CREATE_ANSWERED, ASLEEP, 3, v, 1, Delete("/a"));
    assert With(ASLEEP, 3, View(MADE, CONNECTED, map[QueueM := 3], REMOVER)) == DELETING;
  }

  /** Step `k` of the run strands thread `w`, which waits for `p`. */
  ghost predicate StrandsAt(cfg: Config, tr: seq<State>, mv: seq<Move>, k: nat, w: nat, p: Path) {
    && IsRun(cfg, tr, mv) && k < |mv|
    && WaitsFor(tr[k], w, p) && !Stranded(tr[k], w, p) && Stranded(tr[k + 1], w, p)
  }

  lemma LastStep(s': State)
    requires s' == With(DELETING, 3, View(s'.sh, CONNECTED, map[QueueM := 3], FileStep(SMALL, MADE, REMOVER).1))
    ensures WaitsFor(DELETING, 2, "/a") && !Stranded(DELETING, 2, "/a") && WaitsFor(s', 2, "/a")
    ensures TakesAway(DELETING.sh, DELETING.threads[3], "/a")
  {
    FindUnique(MADE.files, 0);
  }

  lemma DeleteFires() returns (s': State)
    ensures IsStep(SMALL, DELETING, Move(3, ANY), s')
    ensures s' == With(DELETING, 3, View(s'.sh, CONNECTED, map[QueueM := 3], FileStep(SMALL, MADE, REMOVER).1))
  {
    s' := Fire(SMALL, DELETING, 3, ANY);
  }

  lemma StrandsLast(cfg: Config, from: State, tr: seq<State>, mv: seq<Move>, s: State, m: Move, s': State, w: nat, p: Path)
    requires Story(cfg, from, tr, mv, s) && IsStep(cfg, s, m, s') && SoundRequest(cfg, m.ch.req)
    requires WaitsFor(s, w, p) && WaitsFor(s', w, p) && !Stranded(s, w, p) && TakesAway(s.sh, s.threads[m.who], p)
    ensures StrandsAt(cfg, tr + [s'], mv + [m], |mv|, w, p)
  {
    Extended(cfg, tr, mv, m, s');
    StrandedOverRuns(cfg, tr + [s'], mv + [m], |mv|, w, p);
  }

  /** A delete strands a sleeping worker: a run of the server whose last step leaves client 2 waiting
      for a file that is no more. */
  lemma DeleteStrandsWaiter()
    ensures exists tr, mv, k :: StrandsAt(SMALL, tr, mv, k, 2, "/a")
  {
    DeleteComes();
    var tr, mv :| Story(SMALL, CREATE_ANSWERED, tr, mv, DELETING);
    var s' := DeleteFires();
    LastStep(s');
    StrandsLast(SMALL, CREATE_ANSWERED, tr, mv, DELETING, Move(3, ANY), s', 2, "/a");
  }
}
