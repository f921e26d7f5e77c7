/** The server's threads as a transition system.

    A step is one action of one thread: taking or releasing a mutex, going to sleep on a
    condition, signalling or broadcasting one, or one access to shared data. The scheduler is
    any sequence of such steps, for any number of workers. Program points carry the names of
    what the code does next. The client's requests, accepted descriptors, signals and spurious
    wake-ups are choices of the environment.

    A thread woken from the file-lock condition gives the lock mutex back, takes the queue mutex
    and then the lock mutex again, and tests again. */
module Server {
  import opened Files
  import opened EventLog
  import opened LogTheorems
  import opened Operations

  datatype Mutex = ConnM | QueueM | LockM | StatsM | CountM

  datatype Cond = ConnC | LockC | QueueC

  /** Where a worker is in its connection loop. */
  datatype ConnPC =
    | WantConn | TestConn | WaitConn | AsleepConn | WokenConn | FlagTest | PopConn | RelConn | ExitRel
    | WantAdd | DoAdd | RelAdd | FdTest | ReadReq | AfterConn | WantSub | DoSub | RelSub | Exited

  /** The main thread, which accepts connections. */
  datatype MainPC = MainLoop | Selecting | WantPush | PushConn | SignalConn | RelPush | MainDone

  /** The signal thread. */
  datatype SignalPC = Sigwait | MonWantC | MonBcastC | MonRelC | MonWantQ | MonBcastQ | MonRelQ | MonDone

  /** The frame of every request's controller, and the requests that do one thing in it. */
  datatype ReqPC = WantQ | Dispatch | Simple | Reply

  /** Opening and locking, which may have to wait, and unlocking. */
  datatype LockPC = WantL | Try | DropQ | WaitL | AsleepL | WokenL | DropL | RelL | DoUnlock | WantLB | BcastL

  /** Writing and appending. */
  datatype SectionPC = Room | Evicting | IncWant | Inc | IncRel | CheckOwner | Receive | PutBytes

  /** Where a request writes its line of the log: before it takes the queue mutex; in a write or append,
      when there is room or when the victim has been sent; after the read of an empty file. */
  datatype LogSite = BeforeQueue | RoomFound | VictimSent | EmptyRead

  /** Writing a line of the log consults the connection counter. */
  datatype LogPC = LogWant | LogRead | LogRel

  /** Raising a high-water mark: get, compare, set. */
  datatype MarkPC = GetWant | GetMark | GetRel | Compare | SetWant | SetMark | SetRel

  /** Program points; `Crashed` stands for an access the code would not survive, such as popping
      an empty queue. */
  datatype PC =
    | Conn(c: ConnPC)
    | Main(a: MainPC)
    | Signal(g: SignalPC)
    | Req(r: ReqPC)
    | Locking(l: LockPC)
    | Section(s: SectionPC)
    | Marking(k: Mark, m: MarkPC)
    | Logging(at: LogSite, line: LogPC)
    | Crashed(held: set<Mutex>)

  /** One thread: where it is and its local variables. `left` counts the bytes its client has still
      to send, `unset` is what a read of no bytes leaves in the variable for its result. `snap`
      records, for the proofs only, the table at the start of the request's critical section. */
  datatype Thread = Thread(pc: PC, client: ClientId, req: Request, status: int, snap: Store, vic: nat,
                           left: nat, unset: int, seen: int, now: int, fd: int, slot: nat)

  /** Data under the queue mutex and the statistics mutex; `log` is the record of all events. */
  datatype Shared = Shared(files: Store, log: Log, maxNum: int, maxSize: int, replaced: int)

  /** Data of the connection queue, and the two flags the signal thread sets without a mutex;
      `accepted` is the record of all descriptors ever pushed and `served` counts the pops. */
  datatype Pool = Pool(conns: seq<int>, accepted: seq<int>, served: nat,
                       accepting: bool, closing: bool, connections: int)

  datatype State = State(sh: Shared, pool: Pool, holder: map<Mutex, nat>, threads: seq<Thread>)

  /** What the environment may choose at a step; `piece` is the number of bytes a read delivers. */
  datatype Choice = Choice(client: ClientId, req: Request, unset: int, eof: bool, fd: nat, hangup: bool,
                           wake: nat, piece: nat)

  datatype Instr =
    | Acquire(m: Mutex, next: PC)
    | Release(m: Mutex, next: PC)
    | Sleep(c: Cond, m: Mutex, next: PC)
    | Asleep(c: Cond, next: PC)
    | WakeOne(c: Cond, next: PC)
    | WakeAll(c: Cond, next: PC)
    | Consult(next: PC)
    | PoolOp
    | FileOp
    | FromOutside
    | Receiving
    | Halt

  /** A creation raises its mark under both mutexes, a write under the queue mutex alone. */
  function AfterMark(k: Mark): PC {
    if k == NumFile then Locking(RelL) else Req(Reply)
  }

  function AfterLog(at: LogSite): PC {
    match at
    case BeforeQueue => Req(WantQ)
    case RoomFound => Section(CheckOwner)
    case VictimSent => Section(Evicting)
    case EmptyRead => Req(Reply)
  }

  /** The instructions that only move their thread on to the next point. */
  predicate Moves(op: Instr) {
    op.Acquire? || op.Release? || op.Sleep? || op.Asleep? || op.WakeOne? || op.WakeAll? || op.Consult?
  }

  /** The program text. */
  function Fetch(pc: PC): Instr {
    match pc
    case Conn(c) => FetchConn(c)
    case Main(a) => FetchMain(a)
    case Signal(g) => FetchSignal(g)
    case Req(r) => FetchReq(r)
    case Locking(l) => FetchLocking(l)
    case Section(s) => FetchSection(s)
    case Marking(k, m) => FetchMarking(k, m)
    case Logging(at, line) => FetchLogging(at, line)
    case Crashed(_) => Halt
  }

  function FetchConn(c: ConnPC): Instr {
    match c
    case WantConn => Acquire(ConnM, Conn(TestConn))
    case WaitConn => Sleep(ConnC, ConnM, Conn(AsleepConn))
    case AsleepConn => Asleep(ConnC, Conn(WokenConn))
    case WokenConn => Acquire(ConnM, Conn(TestConn))
    case RelConn => Release(ConnM, Conn(WantAdd))
    case ExitRel => Release(ConnM, Conn(Exited))
    case WantAdd => Acquire(CountM, Conn(DoAdd))
    case RelAdd => Release(CountM, Conn(FdTest))
    case ReadReq => FromOutside
    case WantSub => Acquire(CountM, Conn(DoSub))
    case RelSub => Release(CountM, Conn(WantConn))
    case Exited => Halt
    case _ => PoolOp
  }

  function FetchMain(a: MainPC): Instr {
    match a
    case MainLoop => PoolOp
    case Selecting => FromOutside
    case WantPush => Acquire(ConnM, Main(PushConn))
    case PushConn => PoolOp
    case SignalConn => WakeOne(ConnC, Main(RelPush))
    case RelPush => Release(ConnM, Main(MainLoop))
    case MainDone => Halt
  }

  function FetchSignal(g: SignalPC): Instr {
    match g
    case Sigwait => FromOutside
    case MonWantC => Acquire(ConnM, Signal(MonBcastC))
    case MonBcastC => WakeAll(ConnC, Signal(MonRelC))
    case MonRelC => Release(ConnM, Signal(MonWantQ))
    case MonWantQ => Acquire(QueueM, Signal(MonBcastQ))
    case MonBcastQ => WakeAll(QueueC, Signal(MonRelQ))
    case MonRelQ => Release(QueueM, Signal(MonDone))
    case MonDone => Halt
  }

  function FetchReq(r: ReqPC): Instr {
    match r
    case WantQ => Acquire(QueueM, Req(Dispatch))
    case Dispatch => FileOp
    case Simple => FileOp
    case Reply => Release(QueueM, Conn(ReadReq))
  }

  function FetchLocking(l: LockPC): Instr {
    match l
    case WantL => Acquire(LockM, Locking(Try))
    case Try => FileOp
    case DropQ => Release(QueueM, Locking(WaitL))
    case WaitL => Sleep(LockC, LockM, Locking(AsleepL))
    case AsleepL => Asleep(LockC, Locking(WokenL))
    case WokenL => Acquire(LockM, Locking(DropL))
    case DropL => Release(LockM, Req(WantQ))
    case RelL => Release(LockM, Req(Reply))
    case DoUnlock => FileOp
    case WantLB => Acquire(LockM, Locking(BcastL))
    case BcastL => WakeAll(LockC, Locking(RelL))
  }

  function FetchSection(s: SectionPC): Instr {
    match s
    case IncWant => Acquire(StatsM, Section(Inc))
    case IncRel => Release(StatsM, Section(CheckOwner))
    case Receive => Receiving
    case _ => FileOp
  }

  function FetchMarking(k: Mark, m: MarkPC): Instr {
    match m
    case GetWant => Acquire(StatsM, Marking(k, GetMark))
    case GetMark => FileOp
    case GetRel => Release(StatsM, Marking(k, Compare))
    case Compare => FileOp
    case SetWant => Acquire(StatsM, Marking(k, SetMark))
    case SetMark => FileOp
    case SetRel => Release(StatsM, AfterMark(k))
  }

  function FetchLogging(at: LogSite, line: LogPC): Instr {
    match line
    case LogWant => Acquire(CountM, Logging(at, LogRead))
    case LogRead => Consult(Logging(at, LogRel))
    case LogRel => Release(CountM, AfterLog(at))
  }

  // ----- Accesses to the connection queue and the flags -----

  predicate LogsFirst(req: Request) {
    !IsSection(req) && !req.Read?
  }

  function PoolStep(pool: Pool, t: Thread, ch: Choice): (Pool, Thread) {
    match t.pc
    case Conn(c) => ConnStep(pool, t, c, ch)
    case Main(a) => MainStep(pool, t, a, ch)
    case Signal(_) => (if ch.hangup then pool.(accepting := false) else pool.(closing := true), t.(pc := Signal(MonWantC)))
    case _ => (pool, t)
  }

  function ConnStep(pool: Pool, t: Thread, c: ConnPC, ch: Choice): (Pool, Thread) {
    match c
    case TestConn =>
      (pool, t.(pc := Conn(if !pool.closing && pool.accepting && pool.conns == [] then WaitConn else FlagTest)))
    case FlagTest => (pool, t.(pc := Conn(if !pool.accepting || pool.closing then ExitRel else PopConn)))
    case PopConn =>
      if pool.conns == [] then (pool, t.(pc := Crashed({ConnM})))
      else (pool.(conns := pool.conns[1..], served := pool.served + 1),
            t.(fd := pool.conns[0], slot := pool.served, pc := Conn(RelConn)))
    case DoAdd => (pool.(connections := pool.connections + 1), t.(pc := Conn(RelAdd)))
    case FdTest => (pool, t.(pc := Conn(if t.fd != -1 then ReadReq else Exited)))
    case ReadReq =>
      if ch.eof || pool.closing then (pool, t.(pc := Conn(AfterConn)))
      else (pool, t.(client := ch.client, req := ch.req, unset := ch.unset,
                     pc := if LogsFirst(ch.req) then Logging(BeforeQueue, LogWant) else Req(WantQ)))
    case AfterConn => (pool, t.(pc := Conn(if !pool.accepting || pool.closing then Exited else WantSub)))
    case DoSub => (pool.(connections := pool.connections - 1), t.(pc := Conn(RelSub)))
    case _ => (pool, t)
  }

  function MainStep(pool: Pool, t: Thread, a: MainPC, ch: Choice): (Pool, Thread) {
    match a
    case MainLoop => (pool, t.(pc := Main(if pool.accepting && !pool.closing then Selecting else MainDone)))
    case Selecting =>
      if ch.eof then (pool, t.(pc := Main(MainLoop))) else (pool, t.(fd := ch.fd, pc := Main(WantPush)))
    case PushConn =>
      (pool.(conns := pool.conns + [t.fd], accepted := pool.accepted + [t.fd]), t.(pc := Main(SignalConn)))
    case _ => (pool, t)
  }

  // ----- Accesses to the file table and the statistics -----

  function Record(sh: Shared, files: Store, log: Log): Shared {
    sh.(files := files, log := sh.log + log)
  }

  function MarkOf(sh: Shared, k: Mark): int {
    if k == NumFile then sh.maxNum else sh.maxSize
  }

  function FileStep(cfg: Config, sh: Shared, t: Thread): (r: (Shared, Thread))
    ensures r.1.client == t.client && r.1.req == t.req && r.1.unset == t.unset
  {
    match t.pc
    case Req(r) => ReqStep(cfg, sh, t, r)
    case Locking(l) => LockStep(cfg, sh, t, l)
    case Section(s) => SectionStep(cfg, sh, t, s)
    case Marking(k, m) => MarkStep(sh, t, k, m)
    case _ => (sh, t)
  }

  /** Which code a request goes to once it has the queue mutex; a write larger than the whole
      memory is refused at once. */
  function Route(cfg: Config, req: Request): PC {
    match req
    case Open(_, _, _) => Locking(WantL)
    case Lock(_) => Locking(WantL)
    case Unlock(_) => Locking(DoUnlock)
    case Write(_, data) => if |data| > cfg.maxMem then Req(Reply) else Section(Room)
    case Append(_, _) => Section(Room)
    case _ => Req(Simple)
  }

  function ReqStep(cfg: Config, sh: Shared, t: Thread, r: ReqPC): (n: (Shared, Thread))
    ensures n.1.client == t.client && n.1.req == t.req && n.1.unset == t.unset
    ensures n.1.snap == if r.Dispatch? then sh.files else t.snap
  {
    match r
    case Dispatch => (sh, t.(snap := sh.files, status := FAIL, pc := Route(cfg, t.req)))
    case Simple =>
      var r := Outcome(cfg, sh.files, t.client, t.req);
      (Record(sh, r.files, Logged(EventOf(cfg, sh.files, t.client, t.req))),
       t.(status := r.status, pc := AfterSimple(sh.files, t.req)))
    case _ => (sh, t)
  }

  /** The read of an empty file is the only one that is logged. */
  function AfterSimple(s: Store, req: Request): PC {
    if req.Read? && ReadFile(s, req.path) == Some([]) then Logging(EmptyRead, LogWant) else Req(Reply)
  }

  function LockStep(cfg: Config, sh: Shared, t: Thread, l: LockPC): (n: (Shared, Thread))
    ensures n.1.client == t.client && n.1.req == t.req && n.1.unset == t.unset && n.1.snap == t.snap
  {
    var r := Outcome(cfg, sh.files, t.client, t.req);
    var e := EventOf(cfg, sh.files, t.client, t.req);
    match l
    case Try =>
      if r.status == WAIT then (sh, t.(status := WAIT, pc := Locking(DropQ)))
      else (Record(sh, r.files, Logged(e)),
            t.(status := r.status,
               pc := if e.Some? && e.value.Created? then Marking(NumFile, GetWant) else Locking(RelL)))
    case DoUnlock =>
      (Record(sh, r.files, Logged(e)),
       t.(status := r.status, pc := if r.status == OK then Locking(WantLB) else Req(Reply)))
    case _ => (sh, t)
  }

  /** The logging of a write or append. */
  predicate InRoomLog(pc: PC) {
    pc.Logging? && (pc.at == RoomFound || pc.at == VictimSent)
  }

  function SectionStep(cfg: Config, sh: Shared, t: Thread, s: SectionPC): (n: (Shared, Thread))
    ensures n.1.client == t.client && n.1.req == t.req && n.1.unset == t.unset && n.1.snap == t.snap
    ensures n.1.pc.Section? || n.1.pc.Marking? || InRoomLog(n.1.pc) || n.1.pc == Req(Reply) || n.1.pc.Crashed?
            || n.1.pc == t.pc
  {
    var files := sh.files;
    if s.Inc? then (sh.(replaced := sh.replaced + 1), t.(pc := Section(IncRel)))
    else if !IsSection(t.req) then (sh, t.(pc := Crashed({QueueM})))
    else match s
      case Room =>
        if |t.req.data| <= Free(cfg, files) then (sh, t.(pc := Logging(RoomFound, LogWant)))
        else
          var k := FirstFit(files, Free(cfg, files), |t.req.data|);
          if k == |files| then (sh, t.(status := FAIL, pc := Req(Reply)))
          else (sh, t.(vic := k, pc := Logging(VictimSent, LogWant)))
      case Evicting =>
        if t.vic >= |files| then (sh, t.(pc := Crashed({QueueM})))
        else (Record(sh, RemoveAt(files, t.vic), [Evicted(files[t.vic].path, t.client, |t.req.data|, t.req.Write?)]),
              t.(pc := Section(if t.req.Write? then IncWant else CheckOwner)))
      case CheckOwner =>
        if !HasLock(files, t.req.path, t.client) then (sh, t.(status := FAIL, pc := Req(Reply)))
        else if t.req.data != [] then (sh, t.(left := |t.req.data|, pc := Section(Receive)))
        else if t.req.Write? && t.unset == -1 then (sh, t.(status := UNANSWERED, pc := Req(Reply)))
        else (sh, t.(pc := Section(PutBytes)))
      case PutBytes =>
        var r := Put(files, t.req);
        (Record(sh, r.files, if r.status == OK then [PutEvent(t.client, t.req)] else []),
         t.(status := r.status, pc := if r.status == OK then Marking(Storage, GetWant) else Req(Reply)))
      case _ => (sh, t)
  }

  function MarkStep(sh: Shared, t: Thread, k: Mark, m: MarkPC): (n: (Shared, Thread))
    ensures n.1.client == t.client && n.1.req == t.req && n.1.unset == t.unset && n.1.snap == t.snap
    ensures n.1.pc.Marking? || n.1.pc == AfterMark(k) || n.1.pc == t.pc
  {
    match m
    case GetMark => (sh, t.(seen := MarkOf(sh, k), pc := Marking(k, GetRel)))
    case Compare =>
      var now := Level(sh.files, k);
      (sh, t.(now := now, pc := if now > t.seen then Marking(k, SetWant) else AfterMark(k)))
    case SetMark =>
      (if k == NumFile then sh.(maxNum := t.now) else sh.(maxSize := t.now), t.(pc := Marking(k, SetRel)))
    case _ => (sh, t)
  }

  // ----- Steps of the whole server -----

  predicate AsleepOn(t: Thread, c: Cond) {
    Fetch(t.pc).Asleep? && Fetch(t.pc).c == c
  }

  function Wake(t: Thread): Thread {
    if Fetch(t.pc).Asleep? then t.(pc := Fetch(t.pc).next) else t
  }

  function WakeThreads(ts: seq<Thread>, c: Cond): (r: seq<Thread>)
    ensures |r| == |ts|
    ensures forall j :: 0 <= j < |ts| ==> r[j] == if AsleepOn(ts[j], c) then Wake(ts[j]) else ts[j]
  {
    seq(|ts|, j requires 0 <= j < |ts| => if AsleepOn(ts[j], c) then Wake(ts[j]) else ts[j])
  }

  /** A read of the client's bytes, with the queue mutex held: it takes what has come, at least one
      byte; an append's single read takes everything. */
  function Received(t: Thread, piece: nat): (r: Thread)
    requires 1 <= piece <= t.left
    ensures r.client == t.client && r.req == t.req && r.unset == t.unset && r.snap == t.snap
    ensures r.slot == t.slot && r.fd == t.fd && r.status == t.status
    ensures r.pc == t.pc || r.pc == Section(PutBytes)
  {
    t.(left := t.left - piece, pc := if piece == t.left then Section(PutBytes) else t.pc)
  }

  /** Thread `i` can act: a mutex it wants is free, a signal goes to a sleeper if there is one,
      and a halted thread does nothing. */
  ghost predicate Enabled(s: State, i: nat, ch: Choice) {
    i < |s.threads| &&
    match Fetch(s.threads[i].pc)
    case Acquire(m, _) => m !in s.holder
    case WakeOne(c, _) =>
      (exists j :: 0 <= j < |s.threads| && AsleepOn(s.threads[j], c)) ==>
        ch.wake < |s.threads| && AsleepOn(s.threads[ch.wake], c)
    case Receiving =>
      var t := s.threads[i];
      1 <= ch.piece <= t.left && (t.req.Append? ==> ch.piece == t.left)
    case Halt => false
    case _ => true
  }

  ghost function Fire(cfg: Config, s: State, i: nat, ch: Choice): (s': State)
    requires Enabled(s, i, ch)
    ensures |s'.threads| == |s.threads|
  {
    var t := s.threads[i];
    match Fetch(t.pc)
    case Acquire(m, n) => s.(holder := s.holder[m := i], threads := s.threads[i := t.(pc := n)])
    case Release(m, n) => s.(holder := s.holder - {m}, threads := s.threads[i := t.(pc := n)])
    case Sleep(_, m, n) => s.(holder := s.holder - {m}, threads := s.threads[i := t.(pc := n)])
    case Asleep(_, n) => s.(threads := s.threads[i := t.(pc := n)])
    case WakeOne(c, n) =>
      var ts := if ch.wake < |s.threads| && AsleepOn(s.threads[ch.wake], c)
                then s.threads[ch.wake := Wake(s.threads[ch.wake])] else s.threads;
      s.(threads := ts[i := t.(pc := n)])
    case WakeAll(c, n) => s.(threads := WakeThreads(s.threads, c)[i := t.(pc := n)])
    case Consult(n) => s.(threads := s.threads[i := t.(pc := n)])
    case Receiving => s.(threads := s.threads[i := Received(t, ch.piece)])
    case FileOp =>
      var (sh, t') := FileStep(cfg, s.sh, t);
      s.(sh := sh, threads := s.threads[i := t'])
    case _ =>
      var (pool, t') := PoolStep(s.pool, t, ch);
      s.(pool := pool, threads := s.threads[i := t'])
  }

  /** Thread 0 accepts connections, thread 1 waits for signals, all others are workers. */
  ghost predicate Init(s: State) {
    && s.sh == Shared([], [], 0, 0, 0)
    && s.pool == Pool([], [], 0, true, false, 0)
    && s.holder == map[]
    && |s.threads| >= 2
    && forall i :: 0 <= i < |s.threads| ==>
         s.threads[i].pc == if i == 0 then Main(MainLoop) else if i == 1 then Signal(Sigwait) else Conn(WantConn)
  }

  datatype Move = Move(who: nat, ch: Choice)

  /** A run: states and the moves between them. The code checks the size of writes only; appends are
      asked to be of a size for which its arithmetic chooses the victim this model chooses
      (`SectionStep`). */
  ghost predicate IsRun(cfg: Config, tr: seq<State>, mv: seq<Move>) {
    && |tr| == |mv| + 1
    && Init(tr[0])
    && (forall k :: 0 <= k < |mv| ==> SoundRequest(cfg, mv[k].ch.req))
    && forall k :: 0 <= k < |mv| ==> StepAt(cfg, tr, mv, k)
  }

  ghost predicate StepAt(cfg: Config, tr: seq<State>, mv: seq<Move>, k: nat)
    requires |tr| == |mv| + 1 && k < |mv|
  {
    IsStep(cfg, tr[k], mv[k], tr[k + 1])
  }

  ghost predicate IsStep(cfg: Config, s: State, m: Move, s': State) {
    Enabled(s, m.who, m.ch) && s' == Fire(cfg, s, m.who, m.ch)
  }
}
