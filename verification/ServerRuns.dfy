/** The invariant of the whole server, that every run keeps it, and what it means: every
    reachable state has a well-formed table that is the log of legal events replayed, exact
    marks, exclusive mutexes that never deadlock, a queue in order; and every request is answered
    as if it had run alone. */
module ServerRuns {
  import opened Files
  import opened LogTheorems
  import opened Server
  import opened ServerMutex
  import opened ServerStore
  import opened ServerPool

  ghost predicate Inv(cfg: Config, s: State) {
    && Exclusive(s)
    && NoCrash(s)
    && PoolInv(s)
    && TableInv(cfg, s)
  }

  ghost predicate TableInv(cfg: Config, s: State) {
    && Base(cfg, s.sh)
    && (QueueM in s.holder && s.holder[QueueM] < |s.threads| ==> Assertion(cfg, s.sh, s.threads[s.holder[QueueM]]))
    && (QueueM !in s.holder ==> Quiet(s.sh))
  }

  lemma InitInv(cfg: Config, s: State)
    requires Init(s)
    ensures Inv(cfg, s)
  {
  }

  lemma FileOpsHoldQueue(pc: PC)
    ensures Fetch(pc).FileOp? ==> Holds(pc, QueueM)
    ensures Fetch(pc).PoolOp? || Fetch(pc).FromOutside? ==> !Holds(pc, QueueM)
  {
  }

  /** Taking the queue mutex begins a section with nothing pending; giving it back ends one so. */
  lemma QueueEdges(cfg: Config, sh: Shared, t: Thread)
    requires Fetch(t.pc).Acquire? || Fetch(t.pc).Release?
    requires Fetch(t.pc).m == QueueM
    ensures Fetch(t.pc).Acquire? && Quiet(sh) ==> Assertion(cfg, sh, t.(pc := Fetch(t.pc).next))
    ensures Fetch(t.pc).Release? && Assertion(cfg, sh, t) ==> Quiet(sh)
  {
  }

  /** Moving on inside a section, without touching the table, keeps the assertion. */
  lemma MoveKeeps(cfg: Config, sh: Shared, t: Thread)
    requires Assertion(cfg, sh, t)
    requires Moves(Fetch(t.pc))
    requires Holds(t.pc, QueueM) && Holds(Fetch(t.pc).next, QueueM)
    ensures Assertion(cfg, sh, t.(pc := Fetch(t.pc).next))
  {
    match t.pc
    case Req(r) =>
    case Locking(l) => MoveLocking(cfg, sh, t, l);
    case Section(s) => MoveSection(cfg, sh, t, s);
    case Marking(k, m) => MoveMarking(cfg, sh, t, k, m);
    case Logging(at, line) => MoveLogging(cfg, sh, t, at, line);
    case _ =>
  }

  lemma MoveLogging(cfg: Config, sh: Shared, t: Thread, at: LogSite, line: LogPC)
    requires LogAssertion(cfg, sh, t, at) && t.pc == Logging(at, line) && at != BeforeQueue
    ensures Assertion(cfg, sh, t.(pc := FetchLogging(at, line).next))
  {
    match at
    case RoomFound =>
    case VictimSent =>
    case EmptyRead =>
  }

  lemma MoveLocking(cfg: Config, sh: Shared, t: Thread, l: LockPC)
    requires LockAssertion(cfg, sh, t, l) && t.pc == Locking(l)
    requires Moves(FetchLocking(l))
    requires Holds(t.pc, QueueM) && Holds(FetchLocking(l).next, QueueM)
    ensures Assertion(cfg, sh, t.(pc := FetchLocking(l).next))
  {
  }

  lemma MoveSection(cfg: Config, sh: Shared, t: Thread, s: SectionPC)
    requires SectionAssertion(cfg, sh, t, s) && t.pc == Section(s)
    requires Moves(FetchSection(s))
    ensures Assertion(cfg, sh, t.(pc := FetchSection(s).next))
  {
  }

  lemma MoveMarking(cfg: Config, sh: Shared, t: Thread, k: Mark, m: MarkPC)
    requires MarkAssertion(cfg, sh, t, k, m) && t.pc == Marking(k, m)
    requires Moves(FetchMarking(k, m))
    ensures Assertion(cfg, sh, t.(pc := FetchMarking(k, m).next))
  {
  }

  /** Only a thread that holds the queue mutex changes the shared data. */
  lemma TableFrame(cfg: Config, s: State, i: nat, ch: Choice)
    requires Enabled(s, i, ch)
    ensures var s' := Fire(cfg, s, i, ch);
            if Fetch(s.threads[i].pc).FileOp? then (s'.sh, s'.threads[i]) == FileStep(cfg, s.sh, s.threads[i])
            else s'.sh == s.sh
  {
  }

  lemma HolderAsserts(cfg: Config, s: State, w: nat)
    requires Exclusive(s) && TableInv(cfg, s) && w < |s.threads|
    requires Holds(s.threads[w].pc, QueueM) || Fetch(s.threads[w].pc).FileOp?
    ensures Assertion(cfg, s.sh, s.threads[w])
  {
    FileOpsHoldQueue(s.threads[w].pc);
  }

  lemma OwnAccess(cfg: Config, s: State, i: nat, ch: Choice)
    requires Exclusive(s) && TableInv(cfg, s) && Enabled(s, i, ch) && Fetch(s.threads[i].pc).FileOp?
    ensures Kept(cfg, s.sh, s.threads[i], FileStep(cfg, s.sh, s.threads[i]))
    ensures QueueM in s.holder && s.holder[QueueM] == i
  {
    FileOpsHoldQueue(s.threads[i].pc);
    FileStepKeeps(cfg, s.sh, s.threads[i]);
  }

  lemma TableAfterAccess(cfg: Config, s: State, s': State, i: nat, n: (Shared, Thread))
    requires i < |s.threads| && i < |s'.threads| && Kept(cfg, s.sh, s.threads[i], n)
    requires (s'.sh, s'.threads[i]) == n && QueueM in s'.holder && s'.holder[QueueM] == i
    ensures TableInv(cfg, s') && OneEvent(cfg, s.sh, s'.sh, s.threads[i].client) && !s'.threads[i].pc.Crashed?
  {
  }

  lemma TableInvStep(cfg: Config, s: State, i: nat, ch: Choice)
    requires Exclusive(s) && NoCrash(s) && TableInv(cfg, s) && Enabled(s, i, ch)
    ensures TableInv(cfg, Fire(cfg, s, i, ch))
    ensures OneEvent(cfg, s.sh, Fire(cfg, s, i, ch).sh, s.threads[i].client)
    ensures Fire(cfg, s, i, ch).threads[i].pc.Crashed? ==> !Fetch(s.threads[i].pc).FileOp?
  {
    TableFrame(cfg, s, i, ch);
    HolderAfter(cfg, s, i, ch);
    if Fetch(s.threads[i].pc).FileOp? {
      OwnAccess(cfg, s, i, ch);
      TableAfterAccess(cfg, s, Fire(cfg, s, i, ch), i, FileStep(cfg, s.sh, s.threads[i]));
    } else if QueueM in s.holder && s.holder[QueueM] != i {
      OtherHolder(cfg, s, i, ch);
    } else {
      SelfHolder(cfg, s, i, ch);
    }
  }

  lemma OtherHolder(cfg: Config, s: State, i: nat, ch: Choice)
    requires Exclusive(s) && NoCrash(s) && TableInv(cfg, s) && Enabled(s, i, ch)
    requires !Fetch(s.threads[i].pc).FileOp? && QueueM in s.holder && s.holder[QueueM] != i
    ensures TableInv(cfg, Fire(cfg, s, i, ch))
  {
    var h := s.holder[QueueM];
    TableFrame(cfg, s, i, ch);
    HolderAfter(cfg, s, i, ch);
    ExclusiveStep(cfg, s, i, ch);
    StepFrame(cfg, s, i, ch, h);
    if Fetch(s.threads[h].pc).Asleep? {
      SleepText(s.threads[h].pc, QueueM);
    }
    StepHolds(cfg, s, i, ch, h, QueueM);
    assert !Holds(s.threads[i].pc, QueueM);
  }

  /** The step takes or gives back the queue mutex. */
  predicate AtEdge(op: Instr) {
    (op.Acquire? || op.Release?) && op.m == QueueM
  }

  lemma EdgeKeepsTable(cfg: Config, s: State, i: nat, ch: Choice)
    requires Exclusive(s) && TableInv(cfg, s) && Enabled(s, i, ch) && AtEdge(Fetch(s.threads[i].pc))
    requires QueueM in s.holder ==> s.holder[QueueM] == i
    ensures TableInv(cfg, Fire(cfg, s, i, ch))
  {
    TableFrame(cfg, s, i, ch);
    HolderAfter(cfg, s, i, ch);
    StepSelf(cfg, s, i, ch);
    GivesOwn(s, i);
    QueueEdges(cfg, s.sh, s.threads[i]);
  }

  lemma StaysInside(pc: PC)
    requires Holds(pc, QueueM) && !pc.Crashed? && !Fetch(pc).FileOp? && !AtEdge(Fetch(pc)) && pc != Section(Receive)
    ensures Moves(Fetch(pc)) && Holds(Fetch(pc).next, QueueM)
  {
    FileOpsHoldQueue(pc);
    HoldersAct(pc);
  }

  lemma InsideKeepsTable(cfg: Config, s: State, i: nat, ch: Choice)
    requires Exclusive(s) && NoCrash(s) && TableInv(cfg, s) && Enabled(s, i, ch)
    requires !Fetch(s.threads[i].pc).FileOp? && QueueM in s.holder && s.holder[QueueM] == i
    requires !AtEdge(Fetch(s.threads[i].pc))
    ensures TableInv(cfg, Fire(cfg, s, i, ch))
  {
    var t := s.threads[i];
    TableFrame(cfg, s, i, ch);
    HolderAfter(cfg, s, i, ch);
    StepSelf(cfg, s, i, ch);
    if t.pc == Section(Receive) {
      ReceivedKeeps(cfg, s.sh, t, ch.piece);
    } else {
      StaysInside(t.pc);
      MoveKeeps(cfg, s.sh, t);
    }
  }

  lemma SelfHolder(cfg: Config, s: State, i: nat, ch: Choice)
    requires Exclusive(s) && NoCrash(s) && TableInv(cfg, s) && Enabled(s, i, ch)
    requires !Fetch(s.threads[i].pc).FileOp? && (QueueM in s.holder ==> s.holder[QueueM] == i)
    ensures TableInv(cfg, Fire(cfg, s, i, ch))
  {
    if AtEdge(Fetch(s.threads[i].pc)) {
      EdgeKeepsTable(cfg, s, i, ch);
    } else if QueueM in s.holder {
      InsideKeepsTable(cfg, s, i, ch);
    } else {
      TableFrame(cfg, s, i, ch);
      HolderAfter(cfg, s, i, ch);
    }
  }

  lemma SelfDoesNotCrash(cfg: Config, s: State, i: nat, ch: Choice)
    requires Inv(cfg, s) && Enabled(s, i, ch)
    ensures !Fire(cfg, s, i, ch).threads[i].pc.Crashed?
  {
    TableInvStep(cfg, s, i, ch);
    SelfMoves(cfg, s, i, ch);
  }

  lemma OthersDoNotCrash(cfg: Config, s: State, i: nat, ch: Choice, j: nat)
    requires NoCrash(s) && Enabled(s, i, ch) && j < |s.threads| && j != i
    ensures !Fire(cfg, s, i, ch).threads[j].pc.Crashed?
  {
    StepFrame(cfg, s, i, ch, j);
  }

  /** No thread ever makes an access the code does not survive; in particular no worker pops an
      empty connection queue. */
  lemma NoCrashStep(cfg: Config, s: State, i: nat, ch: Choice)
    requires Inv(cfg, s) && Enabled(s, i, ch)
    ensures NoCrash(Fire(cfg, s, i, ch))
  {
    SelfDoesNotCrash(cfg, s, i, ch);
    forall j: nat | j < |s.threads| && j != i ensures !Fire(cfg, s, i, ch).threads[j].pc.Crashed? {
      OthersDoNotCrash(cfg, s, i, ch, j);
    }
  }

  lemma InvStep(cfg: Config, s: State, i: nat, ch: Choice)
    requires Inv(cfg, s) && Enabled(s, i, ch)
    ensures Inv(cfg, Fire(cfg, s, i, ch))
    ensures OneEvent(cfg, s.sh, Fire(cfg, s, i, ch).sh, s.threads[i].client)
  {
    ExclusiveStep(cfg, s, i, ch);
    TableInvStep(cfg, s, i, ch);
    PoolInvStep(cfg, s, i, ch);
    NoCrashStep(cfg, s, i, ch);
  }

  lemma InvMove(cfg: Config, s: State, m: Move, s': State)
    requires Inv(cfg, s) && IsStep(cfg, s, m, s')
    ensures Inv(cfg, s')
  {
    InvStep(cfg, s, m.who, m.ch);
  }

  /** The invariant holds in every state of every run. */
  lemma {:induction false} RunsKeepInv(cfg: Config, tr: seq<State>, mv: seq<Move>, k: nat)
    requires IsRun(cfg, tr, mv) && k < |tr|
    ensures Inv(cfg, tr[k])
  {
    if k == 0 {
      InitInv(cfg, tr[0]);
    } else {
      RunsKeepInv(cfg, tr, mv, k - 1);
      assert StepAt(cfg, tr, mv, k - 1);
      InvMove(cfg, tr[k - 1], mv[k - 1], tr[k]);
    }
  }

  /** One step of a run, from a state that satisfies the invariant. */
  lemma RunStep(cfg: Config, tr: seq<State>, mv: seq<Move>, k: nat)
    requires IsRun(cfg, tr, mv) && k < |mv|
    ensures Inv(cfg, tr[k]) && IsStep(cfg, tr[k], mv[k], tr[k + 1])
  {
    RunsKeepInv(cfg, tr, mv, k);
    assert StepAt(cfg, tr, mv, k);
  }
}
