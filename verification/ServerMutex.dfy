/** The mutexes: exclusion, the lock order, freedom from deadlock, and that no request ends
    holding anything. All of it over every run and any number of workers.

    One wait keeps a mutex: a write or append receives its client's bytes with the queue mutex
    held. So the server can stand still, but only for a client that owes it bytes. */
module ServerMutex {
  import opened Files
  import opened LogTheorems
  import opened Server

  /** The mutexes a thread holds at each program point. */
  predicate Holds(pc: PC, m: Mutex) {
    match pc
    case Conn(c) =>
      if m == ConnM then c.TestConn? || c.FlagTest? || c.WaitConn? || c.PopConn? || c.RelConn? || c.ExitRel?
      else m == CountM && (c.DoAdd? || c.RelAdd? || c.DoSub? || c.RelSub?)
    case Main(a) => m == ConnM && (a.PushConn? || a.SignalConn? || a.RelPush?)
    case Signal(g) =>
      if m == ConnM then g.MonBcastC? || g.MonRelC? else m == QueueM && (g.MonBcastQ? || g.MonRelQ?)
    case Req(r) => m == QueueM && !r.WantQ?
    case Locking(l) =>
      if m == QueueM then !l.WaitL? && !l.AsleepL? && !l.WokenL? && !l.DropL?
      else m == LockM && (l.Try? || l.DropQ? || l.WaitL? || l.DropL? || l.RelL? || l.BcastL?)
    case Section(s) => m == QueueM || (m == StatsM && (s.Inc? || s.IncRel?))
    case Marking(k, at) =>
      || m == QueueM
      || (m == LockM && k == NumFile)
      || (m == StatsM && (at.GetMark? || at.GetRel? || at.SetMark? || at.SetRel?))
    case Logging(at, line) =>
      (m == QueueM && at != BeforeQueue) || (m == CountM && (line.LogRead? || line.LogRel?))
    case Crashed(held) => m in held
  }

  predicate HoldsNothing(pc: PC) {
    !Holds(pc, ConnM) && !Holds(pc, QueueM) && !Holds(pc, LockM) && !Holds(pc, StatsM) && !Holds(pc, CountM)
  }

  /** The order in which mutexes are taken. The connection mutex is taken by threads that hold nothing;
      the counter mutex, also by requests that write to the log with the queue mutex held. */
  function Rank(m: Mutex): nat {
    match m case ConnM => 0 case QueueM => 1 case LockM => 2 case StatsM => 3 case CountM => 4
  }

  /** Sleeping, waiting for a connection, a signal or a request, or finished: such a thread holds no
      mutex. */
  predicate Parked(pc: PC) {
    Fetch(pc).Asleep? || Fetch(pc).FromOutside? || Fetch(pc).Halt?
  }

  /** The thread with the queue mutex waits for the bytes of the request it serves. */
  ghost predicate ClientOwesBytes(s: State) {
    QueueM in s.holder && s.holder[QueueM] < |s.threads| && s.threads[s.holder[QueueM]].pc == Section(Receive)
  }

  /** Which thread holds which mutex is a matter of where the threads are. */
  ghost predicate Exclusive(s: State) {
    && (forall m :: m in s.holder ==> s.holder[m] < |s.threads| && Holds(s.threads[s.holder[m]].pc, m))
    && (forall i, m :: 0 <= i < |s.threads| && Holds(s.threads[i].pc, m) ==> m in s.holder && s.holder[m] == i)
  }

  lemma OneHolder(s: State, i: nat, w: nat, m: Mutex)
    requires Exclusive(s) && i < |s.threads| && w < |s.threads| && i != w && Holds(s.threads[i].pc, m)
    ensures !Holds(s.threads[w].pc, m)
  {
    assert s.holder[m] == i;
  }

  ghost predicate NoCrash(s: State) {
    forall i :: 0 <= i < |s.threads| ==> !s.threads[i].pc.Crashed?
  }

  /** Mutexes are taken in order. */
  lemma AcquireText(pc: PC, m: Mutex)
    requires Fetch(pc).Acquire?
    ensures Holds(Fetch(pc).next, m) <==> Holds(pc, m) || m == Fetch(pc).m
    ensures Holds(pc, m) ==> Rank(m) < Rank(Fetch(pc).m)
  {
  }

  lemma ReleaseText(pc: PC, m: Mutex)
    requires Fetch(pc).Release?
    ensures Holds(pc, Fetch(pc).m)
    ensures Holds(Fetch(pc).next, m) <==> Holds(pc, m) && m != Fetch(pc).m
  {
  }

  lemma SleepText(pc: PC, m: Mutex)
    requires Fetch(pc).Sleep? || Fetch(pc).Asleep?
    ensures Holds(pc, m) <==> Fetch(pc).Sleep? && m == Fetch(pc).m
    ensures !Holds(Fetch(pc).next, m)
    ensures if Fetch(pc).Sleep? then Fetch(Fetch(pc).next).Asleep? else Fetch(Fetch(pc).next).Acquire?
  {
  }

  lemma QuietText(pc: PC, m: Mutex)
    requires !pc.Crashed?
    ensures Fetch(pc).Receiving? ==> pc == Section(Receive) && (Holds(pc, m) <==> m == QueueM)
    ensures Fetch(pc).Receiving? ==> (Holds(Section(PutBytes), m) <==> m == QueueM)
    ensures Fetch(pc).WakeOne? || Fetch(pc).WakeAll? || Fetch(pc).Consult? ==>
              (Holds(Fetch(pc).next, m) <==> Holds(pc, m))
    ensures Fetch(pc).FromOutside? || Fetch(pc).Halt? ==> !Holds(pc, m)
  {
  }

  lemma PoolStepHolds(pool: Pool, t: Thread, ch: Choice, m: Mutex)
    requires Fetch(t.pc).PoolOp? || Fetch(t.pc).FromOutside?
    ensures Holds(PoolStep(pool, t, ch).1.pc, m) <==> Holds(t.pc, m)
  {
  }

  lemma ReqStepHolds(cfg: Config, sh: Shared, t: Thread, r: ReqPC, m: Mutex)
    requires FetchReq(r).FileOp?
    ensures Holds(ReqStep(cfg, sh, t, r).1.pc, m) <==> Holds(Req(r), m)
  {
  }

  lemma LockStepHolds(cfg: Config, sh: Shared, t: Thread, l: LockPC, m: Mutex)
    requires FetchLocking(l).FileOp?
    ensures Holds(LockStep(cfg, sh, t, l).1.pc, m) <==> Holds(Locking(l), m)
  {
    if l.Try? {
      TryHolds(cfg, sh, t, m);
    } else {
      DoUnlockHolds(cfg, sh, t, m);
    }
  }

  lemma TryHolds(cfg: Config, sh: Shared, t: Thread, m: Mutex)
    ensures Holds(LockStep(cfg, sh, t, Try).1.pc, m) <==> m == QueueM || m == LockM
  {
  }

  lemma DoUnlockHolds(cfg: Config, sh: Shared, t: Thread, m: Mutex)
    ensures Holds(LockStep(cfg, sh, t, DoUnlock).1.pc, m) <==> m == QueueM
  {
  }

  lemma SectionStepHolds(cfg: Config, sh: Shared, t: Thread, s: SectionPC, m: Mutex)
    requires FetchSection(s).FileOp?
    ensures Holds(SectionStep(cfg, sh, t, s).1.pc, m) <==> Holds(Section(s), m)
  {
  }

  lemma MarkStepHolds(sh: Shared, t: Thread, k: Mark, a: MarkPC, m: Mutex)
    requires FetchMarking(k, a).FileOp?
    ensures Holds(MarkStep(sh, t, k, a).1.pc, m) <==> Holds(Marking(k, a), m)
  {
  }

  lemma FileStepHolds(cfg: Config, sh: Shared, t: Thread, m: Mutex)
    requires Fetch(t.pc).FileOp?
    ensures Holds(FileStep(cfg, sh, t).1.pc, m) <==> Holds(t.pc, m)
  {
    match t.pc
    case Req(r) => ReqStepHolds(cfg, sh, t, r, m);
    case Locking(l) => LockStepHolds(cfg, sh, t, l, m);
    case Section(s) => SectionStepHolds(cfg, sh, t, s, m);
    case Marking(k, a) => MarkStepHolds(sh, t, k, a, m);
  }

  /** What a step does to the threads: its own thread moves on, other threads can only be woken. */
  lemma StepFrame(cfg: Config, s: State, i: nat, ch: Choice, j: nat)
    requires Enabled(s, i, ch) && j < |s.threads| && j != i
    ensures var t' := Fire(cfg, s, i, ch).threads[j];
            t' == s.threads[j] || (Fetch(s.threads[j].pc).Asleep? && t' == Wake(s.threads[j]))
  {
  }

  /** What a step does to its own thread. */
  lemma StepSelf(cfg: Config, s: State, i: nat, ch: Choice)
    requires Enabled(s, i, ch)
    ensures var t := s.threads[i];
            Fire(cfg, s, i, ch).threads[i] ==
            match Fetch(t.pc)
            case FileOp => FileStep(cfg, s.sh, t).1
            case PoolOp => PoolStep(s.pool, t, ch).1
            case FromOutside => PoolStep(s.pool, t, ch).1
            case Acquire(_, n) => t.(pc := n)
            case Release(_, n) => t.(pc := n)
            case Sleep(_, _, n) => t.(pc := n)
            case Asleep(_, n) => t.(pc := n)
            case WakeOne(_, n) => t.(pc := n)
            case WakeAll(_, n) => t.(pc := n)
            case Consult(n) => t.(pc := n)
            case Receiving => Received(t, ch.piece)
            case Halt => t
  {
  }

  /** How a step changes whether a thread holds `m`. */
  ghost predicate HeldAfter(op: Instr, self: bool, m: Mutex, held: bool) {
    if self && op.Acquire? && m == op.m then true
    else if self && (op.Release? || op.Sleep?) && m == op.m then false
    else held
  }

  lemma StepHolds(cfg: Config, s: State, i: nat, ch: Choice, j: nat, m: Mutex)
    requires Enabled(s, i, ch) && j < |s.threads| && NoCrash(s)
    ensures Holds(Fire(cfg, s, i, ch).threads[j].pc, m)
            <==> HeldAfter(Fetch(s.threads[i].pc), j == i, m, Holds(s.threads[j].pc, m))
  {
    var pc := s.threads[j].pc;
    if j != i {
      StepFrame(cfg, s, i, ch, j);
      if Fetch(pc).Asleep? {
        SleepText(pc, m);
      }
    } else {
      StepSelf(cfg, s, i, ch);
      match Fetch(pc)
      case FileOp => FileStepHolds(cfg, s.sh, s.threads[i], m);
      case PoolOp => PoolStepHolds(s.pool, s.threads[i], ch, m);
      case FromOutside => PoolStepHolds(s.pool, s.threads[i], ch, m);
      case Acquire(_, _) => AcquireText(pc, m);
      case Release(_, _) => ReleaseText(pc, m);
      case Sleep(_, _, _) => SleepText(pc, m);
      case Asleep(_, _) => SleepText(pc, m);
      case Receiving => QuietText(pc, m);
      case _ => QuietText(pc, m);
    }
  }

  lemma HolderAfter(cfg: Config, s: State, i: nat, ch: Choice)
    requires Enabled(s, i, ch)
    ensures var s' := Fire(cfg, s, i, ch);
            var op := Fetch(s.threads[i].pc);
            s'.holder == if op.Acquire? then s.holder[op.m := i]
                         else if op.Release? || op.Sleep? then s.holder - {op.m} else s.holder
  {
  }

  lemma ExclusiveStep(cfg: Config, s: State, i: nat, ch: Choice)
    requires Exclusive(s) && NoCrash(s) && Enabled(s, i, ch)
    ensures Exclusive(Fire(cfg, s, i, ch))
  {
    var s' := Fire(cfg, s, i, ch);
    forall j: nat, m | j < |s.threads|
      ensures Holds(s'.threads[j].pc, m) <==> m in s'.holder && s'.holder[m] == j
    {
      HolderStep(cfg, s, i, ch, j, m);
    }
    HolderInRange(cfg, s, i, ch);
    ExclusiveFrom(s');
  }

  lemma ExclusiveFrom(s: State)
    requires forall j, m :: 0 <= j < |s.threads| ==> (Holds(s.threads[j].pc, m) <==> m in s.holder && s.holder[m] == j)
    requires forall m :: m in s.holder ==> s.holder[m] < |s.threads|
    ensures Exclusive(s)
  {
  }

  lemma HolderStep(cfg: Config, s: State, i: nat, ch: Choice, j: nat, m: Mutex)
    requires Exclusive(s) && NoCrash(s) && Enabled(s, i, ch) && j < |s.threads|
    ensures var s' := Fire(cfg, s, i, ch);
            Holds(s'.threads[j].pc, m) <==> m in s'.holder && s'.holder[m] == j
  {
    HolderAfter(cfg, s, i, ch);
    StepHolds(cfg, s, i, ch, j, m);
    HolderOf(s, i, j, m);
  }

  lemma HolderOf(s: State, i: nat, j: nat, m: Mutex)
    requires Exclusive(s) && i < |s.threads| && j < |s.threads|
    requires Fetch(s.threads[i].pc).Acquire? ==> Fetch(s.threads[i].pc).m !in s.holder
    ensures var op := Fetch(s.threads[i].pc);
            var holder' := if op.Acquire? then s.holder[op.m := i]
                           else if op.Release? || op.Sleep? then s.holder - {op.m} else s.holder;
            HeldAfter(op, j == i, m, Holds(s.threads[j].pc, m)) <==> m in holder' && holder'[m] == j
  {
    GivesOwn(s, i);
    HeldIffHolder(s.holder, Fetch(s.threads[i].pc), i, j, m, Holds(s.threads[j].pc, m));
  }

  /** A mutex given back is one's own. */
  lemma GivesOwn(s: State, i: nat)
    requires Exclusive(s) && i < |s.threads|
    ensures var op := Fetch(s.threads[i].pc);
            op.Release? || op.Sleep? ==> op.m in s.holder && s.holder[op.m] == i
  {
    var pc := s.threads[i].pc;
    if Fetch(pc).Release? {
      ReleaseText(pc, Fetch(pc).m);
    } else if Fetch(pc).Sleep? {
      SleepText(pc, Fetch(pc).m);
    }
  }

  /** A mutex that is held stays so as long as others act. */
  lemma OthersLeaveMutex(cfg: Config, s: State, i: nat, ch: Choice, m: Mutex)
    requires Exclusive(s) && Enabled(s, i, ch) && m in s.holder && s.holder[m] != i
    ensures var holder := Fire(cfg, s, i, ch).holder; m in holder && holder[m] == s.holder[m]
  {
    GivesOwn(s, i);
    HolderAfter(cfg, s, i, ch);
  }

  lemma HeldIffHolder(holder: map<Mutex, nat>, op: Instr, i: nat, j: nat, m: Mutex, held: bool)
    requires held <==> m in holder && holder[m] == j
    requires op.Acquire? ==> op.m !in holder
    requires op.Release? || op.Sleep? ==> op.m in holder && holder[op.m] == i
    ensures var holder' := if op.Acquire? then holder[op.m := i]
                           else if op.Release? || op.Sleep? then holder - {op.m} else holder;
            HeldAfter(op, j == i, m, held) <==> m in holder' && holder'[m] == j
  {
  }

  lemma HolderInRange(cfg: Config, s: State, i: nat, ch: Choice)
    requires Exclusive(s) && Enabled(s, i, ch)
    ensures var s' := Fire(cfg, s, i, ch);
            forall m :: m in s'.holder ==> s'.holder[m] < |s'.threads|
  {
  }

  // ----- Deadlock freedom -----

  /** A thread that can act now without help from outside and without a spurious wake-up. */
  ghost predicate CanMove(s: State, i: nat) {
    i < |s.threads| && !Parked(s.threads[i].pc) && s.threads[i].pc != Section(Receive) && exists ch :: Enabled(s, i, ch)
  }

  lemma MovesUnlessBlocked(s: State, i: nat)
    requires i < |s.threads| && !Parked(s.threads[i].pc) && s.threads[i].pc != Section(Receive)
    requires Fetch(s.threads[i].pc).Acquire? ==> Fetch(s.threads[i].pc).m !in s.holder
    ensures CanMove(s, i)
  {
    var t := s.threads[i];
    var wake := 0;
    if Fetch(t.pc).WakeOne? {
      var c := Fetch(t.pc).c;
      if j :| 0 <= j < |s.threads| && AsleepOn(s.threads[j], c) {
        wake := j;
      }
    }
    var ch := Choice(t.client, t.req, 0, false, 0, false, wake, 0);
    assert Enabled(s, i, ch);
  }

  /** Following from holder to holder goes up the lock order, so it ends in a thread that moves or
      in the one that receives, which only threads that want the queue mutex or less lead to. */
  lemma {:induction false} ChainEnds(s: State, i: nat) returns (j: nat)
    requires Exclusive(s) && NoCrash(s) && i < |s.threads| && !Parked(s.threads[i].pc)
    ensures CanMove(s, j) || (j < |s.threads| && s.threads[j].pc == Section(Receive))
    ensures j < |s.threads| && s.threads[j].pc == Section(Receive) && i != j ==>
              Fetch(s.threads[i].pc).Acquire? && Rank(Fetch(s.threads[i].pc).m) <= Rank(QueueM)
    decreases if Fetch(s.threads[i].pc).Acquire? then 5 - Rank(Fetch(s.threads[i].pc).m) else 0
  {
    var pc := s.threads[i].pc;
    if Fetch(pc).Acquire? && Fetch(pc).m in s.holder {
      var m := Fetch(pc).m;
      var h := s.holder[m];
      HolderText(s.threads[h].pc, m);
      j := ChainEnds(s, h);
    } else {
      if pc != Section(Receive) {
        MovesUnlessBlocked(s, i);
      }
      j := i;
    }
  }

  /** What the holder of `m` can be doing: it is not parked, wants at most a mutex further up, and
      receives only if `m` is the queue mutex. */
  lemma HolderText(pc: PC, m: Mutex)
    requires !pc.Crashed? && Holds(pc, m)
    ensures !Parked(pc) && (Fetch(pc).Acquire? ==> Rank(m) < Rank(Fetch(pc).m) && m != ConnM)
    ensures pc == Section(Receive) ==> m == QueueM
  {
    QuietText(pc, m);
    if Fetch(pc).Asleep? {
      SleepText(pc, m);
    } else if Fetch(pc).Acquire? {
      AcquireText(pc, m);
    }
  }

  /** Whenever some thread is not parked, some such thread can take a step, or the holder of the
      queue mutex waits for bytes its own client owes. */
  lemma NoDeadlock(s: State)
    requires Exclusive(s) && NoCrash(s)
    requires exists i :: 0 <= i < |s.threads| && !Parked(s.threads[i].pc)
    ensures (exists j :: CanMove(s, j)) || ClientOwesBytes(s)
  {
    var i :| 0 <= i < |s.threads| && !Parked(s.threads[i].pc);
    var j := ChainEnds(s, i);
    if s.threads[j].pc == Section(Receive) {
      assert Holds(s.threads[j].pc, QueueM);
    }
  }

  /** A mutex that is taken is taken by a thread that is not parked, and the way to its next action
      leads through mutexes further up the order to a thread that can step; only the queue mutex
      can be kept by a thread that waits for its client's bytes. */
  lemma HeldMutexIsReleasable(s: State, m: Mutex)
    requires Exclusive(s) && NoCrash(s) && m in s.holder
    ensures !Parked(s.threads[s.holder[m]].pc)
    ensures (exists j :: CanMove(s, j)) || (m == QueueM && ClientOwesBytes(s))
  {
    var h := s.holder[m];
    HolderText(s.threads[h].pc, m);
    var j := ChainEnds(s, h);
  }

  /** Between requests, asleep, or finished, a thread holds no mutex: every controller gives
      back what it took. */
  lemma ParkedHoldsNothing(s: State, i: nat, m: Mutex)
    requires Exclusive(s) && NoCrash(s) && i < |s.threads| && Parked(s.threads[i].pc)
    ensures m in s.holder ==> s.holder[m] != i
  {
    if m in s.holder && s.holder[m] == i {
      HolderText(s.threads[i].pc, m);
    }
  }

  /** A thread that receives holds the queue mutex and no other; so at most one receives. */
  lemma ReceiverHoldsQueueOnly(s: State, i: nat, m: Mutex)
    requires Exclusive(s) && NoCrash(s) && i < |s.threads| && s.threads[i].pc == Section(Receive)
    ensures m in s.holder && s.holder[m] == i <==> m == QueueM
  {
    assert Holds(s.threads[i].pc, m) <==> m == QueueM;
  }

  /** Steps a thread at `pc` still needs, at most, until it holds nothing; receiving aside. */
  function StepsLeft(pc: PC): nat {
    match pc
    case Conn(c) =>
      (match c case TestConn => 4 case FlagTest => 3 case PopConn => 2 case DoAdd => 2 case DoSub => 2
       case WaitConn => 1 case RelConn => 1 case ExitRel => 1 case RelAdd => 1 case RelSub => 1 case _ => 0)
    case Main(a) => (match a case PushConn => 3 case SignalConn => 2 case RelPush => 1 case _ => 0)
    case Signal(g) =>
      (match g case MonBcastC => 2 case MonRelC => 1 case MonBcastQ => 2 case MonRelQ => 1 case _ => 0)
    case Req(r) => (match r case Dispatch => 23 case Simple => 5 case Reply => 1 case _ => 0)
    case Locking(l) =>
      (match l case WantL => 12 case Try => 11 case DoUnlock => 5 case WantLB => 4 case BcastL => 3
       case RelL => 2 case DropQ => 2 case WaitL => 1 case DropL => 1 case _ => 0)
    case Section(s) =>
      (match s case Room => 22 case Evicting => 18 case IncWant => 17 case Inc => 16 case IncRel => 15
       case CheckOwner => 14 case Receive => 11 case PutBytes => 11)
    case Marking(_, m) =>
      (match m case GetWant => 9 case GetMark => 8 case GetRel => 7 case Compare => 6 case SetWant => 5
       case SetMark => 4 case SetRel => 3)
    case Logging(at, line) =>
      (match at case BeforeQueue => 0 case RoomFound => 14 case VictimSent => 18 case EmptyRead => 1)
      + (match line case LogWant => 3 case LogRead => 2 case LogRel => 1)
    case Crashed(_) => 0
  }

  /** Reads a thread may still need to receive its client's bytes. */
  function ReadsLeft(t: Thread): nat {
    if t.pc == Section(Receive) then t.left
    else if t.pc == Section(PutBytes) || !(t.pc.Section? || t.pc == Req(Dispatch) || InRoomLog(t.pc)) || !IsSection(t.req)
    then 0
    else |t.req.data|
  }

  /** Each own step of a thread that holds a mutex brings it closer to holding none, one read of its
      client's bytes included. So no thread keeps a mutex for ever by its own doing: it needs at most
      23 steps and one read for each byte, and nothing but those reads can make it wait. */
  lemma CriticalSectionsEnd(cfg: Config, s: State, i: nat, ch: Choice)
    requires Enabled(s, i, ch) && NoCrash(s) && NoCrash(Fire(cfg, s, i, ch))
    requires !HoldsNothing(s.threads[i].pc)
    ensures var t, t' := s.threads[i], Fire(cfg, s, i, ch).threads[i];
            HoldsNothing(t'.pc) || StepsLeft(t'.pc) + ReadsLeft(t') < StepsLeft(t.pc) + ReadsLeft(t)
    ensures StepsLeft(s.threads[i].pc) <= 23
  {
    StepSelf(cfg, s, i, ch);
    var t := s.threads[i];
    if Fetch(t.pc).FileOp? {
      FileStepsLeft(cfg, s.sh, t);
      FileReadsLeft(cfg, s.sh, t);
    } else if Fetch(t.pc).PoolOp? {
      PoolStepsLeft(s.pool, t, ch);
    } else if t.pc != Section(Receive) {
      HoldersAct(t.pc);
      MoveStepsLeft(t.pc);
      MoveReadsLeft(t);
    }
  }

  /** A thread that holds a mutex waits for nothing but a mutex or its client's bytes. */
  lemma HoldersAct(pc: PC)
    requires !HoldsNothing(pc) && !pc.Crashed?
    ensures !Fetch(pc).FromOutside? && !Fetch(pc).Halt? && !Fetch(pc).Asleep?
    ensures Moves(Fetch(pc)) || Fetch(pc).FileOp? || Fetch(pc).PoolOp? || pc == Section(Receive)
  {
    var m :| Holds(pc, m);
    QuietText(pc, m);
  }

  lemma MoveStepsLeft(pc: PC)
    requires Moves(Fetch(pc)) && !HoldsNothing(pc)
    ensures HoldsNothing(Fetch(pc).next) || StepsLeft(Fetch(pc).next) < StepsLeft(pc)
  {
    if pc.Conn? || pc.Main? || pc.Signal? || pc.Req? {
    } else {
      MoveStepsLeftInside(pc);
    }
  }

  lemma MoveStepsLeftInside(pc: PC)
    requires Moves(Fetch(pc)) && !HoldsNothing(pc) && (pc.Locking? || pc.Section? || pc.Marking? || pc.Logging?)
    ensures HoldsNothing(Fetch(pc).next) || StepsLeft(Fetch(pc).next) < StepsLeft(pc)
  {
  }

  lemma MoveReadsLeft(t: Thread)
    requires Moves(Fetch(t.pc)) && !HoldsNothing(t.pc)
    ensures ReadsLeft(t.(pc := Fetch(t.pc).next)) <= ReadsLeft(t)
  {
  }

  lemma FileStepsLeft(cfg: Config, sh: Shared, t: Thread)
    requires Fetch(t.pc).FileOp?
    ensures FileStep(cfg, sh, t).1.pc.Crashed? || StepsLeft(FileStep(cfg, sh, t).1.pc) < StepsLeft(t.pc)
  {
    match t.pc
    case Req(r) => ReqStepsLeft(cfg, sh, t, r);
    case Locking(l) => LockStepsLeft(cfg, sh, t, l);
    case Section(s) => SectionStepsLeft(cfg, sh, t, s);
    case Marking(k, m) => MarkStepsLeft(sh, t, k, m);
  }

  lemma ReqStepsLeft(cfg: Config, sh: Shared, t: Thread, r: ReqPC)
    requires FetchReq(r).FileOp?
    ensures StepsLeft(ReqStep(cfg, sh, t, r).1.pc) < StepsLeft(Req(r))
  {
  }

  lemma LockStepsLeft(cfg: Config, sh: Shared, t: Thread, l: LockPC)
    requires FetchLocking(l).FileOp?
    ensures StepsLeft(LockStep(cfg, sh, t, l).1.pc) < StepsLeft(Locking(l))
  {
    match l
    case Try =>
    case DoUnlock =>
  }

  lemma MarkStepsLeft(sh: Shared, t: Thread, k: Mark, m: MarkPC)
    requires FetchMarking(k, m).FileOp?
    ensures StepsLeft(MarkStep(sh, t, k, m).1.pc) < StepsLeft(Marking(k, m))
  {
  }

  lemma SectionStepsLeft(cfg: Config, sh: Shared, t: Thread, s: SectionPC)
    requires t.pc == Section(s) && FetchSection(s).FileOp?
    ensures var pc' := SectionStep(cfg, sh, t, s).1.pc; pc'.Crashed? || StepsLeft(pc') < StepsLeft(t.pc)
  {
  }

  lemma FileReadsLeft(cfg: Config, sh: Shared, t: Thread)
    requires Fetch(t.pc).FileOp?
    ensures ReadsLeft(FileStep(cfg, sh, t).1) <= ReadsLeft(t)
  {
    match t.pc
    case Req(r) => ReqReadsLeft(cfg, sh, t, r);
    case Locking(l) => LockReadsLeft(cfg, sh, t, l);
    case Section(s) => SectionReadsLeft(cfg, sh, t, s);
    case Marking(k, m) =>
  }

  lemma ReqReadsLeft(cfg: Config, sh: Shared, t: Thread, r: ReqPC)
    requires t.pc == Req(r) && FetchReq(r).FileOp?
    ensures ReadsLeft(ReqStep(cfg, sh, t, r).1) <= ReadsLeft(t)
  {
  }

  lemma LockReadsLeft(cfg: Config, sh: Shared, t: Thread, l: LockPC)
    requires FetchLocking(l).FileOp?
    ensures ReadsLeft(LockStep(cfg, sh, t, l).1) == 0
  {
  }

  lemma SectionReadsLeft(cfg: Config, sh: Shared, t: Thread, s: SectionPC)
    requires t.pc == Section(s) && FetchSection(s).FileOp?
    ensures ReadsLeft(SectionStep(cfg, sh, t, s).1) <= ReadsLeft(t)
  {
  }

  lemma PoolStepsLeft(pool: Pool, t: Thread, ch: Choice)
    requires Fetch(t.pc).PoolOp? && !HoldsNothing(t.pc)
    ensures var t' := PoolStep(pool, t, ch).1;
            t'.pc.Crashed? || (StepsLeft(t'.pc) < StepsLeft(t.pc) && ReadsLeft(t') <= ReadsLeft(t))
  {
  }
}
