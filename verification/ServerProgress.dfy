/** What a thread's own steps lead to. Nothing here says that a thread is scheduled; but whatever the
    others do, so many steps of its own bring it to the answer of its request, back to testing for the
    lock, back to the pool, or out of it. */
module ServerProgress {
  import opened Files
  import opened Server
  import opened ServerMutex
  import opened ServerStore
  import opened ServerRuns
  import opened ServerWakeup

  /** The steps thread `w` makes between states `a` and `b`. */
  function OwnSteps(mv: seq<Move>, a: nat, b: nat, w: nat): nat
    requires a <= b <= |mv|
    decreases b
  {
    if a == b then 0 else OwnSteps(mv, a, b - 1, w) + if mv[b - 1].who == w then 1 else 0
  }

  /** The same request, for the same client. */
  ghost predicate SameRequest(t: Thread, t': Thread) {
    t'.client == t.client && t'.req == t.req && t'.unset == t.unset
  }

  // ----- Every request is answered, or waits -----

  /** The thread serves a request and is not waiting for a file lock. */
  predicate Busy(pc: PC) {
    match pc
    case Req(r) => !r.Reply?
    case Locking(l) => l.WantL? || l.Try? || l.RelL? || l.DoUnlock? || l.WantLB? || l.BcastL?
    case Section(_) => true
    case Marking(_, _) => true
    case Logging(_, _) => true
    case _ => false
  }

  /** The answer is about to be sent, or the thread has decided to wait. */
  predicate Ended(pc: PC) {
    pc == Req(Reply) || pc == Locking(DropQ)
  }

  /** Steps a busy thread still needs at most, reads of its client's bytes included. */
  function ToAnswer(t: Thread): nat {
    var bytes := if IsSection(t.req) then |t.req.data| else 0;
    match t.pc
    case Logging(BeforeQueue, line) => bytes + 24 + (match line case LogWant => 3 case LogRead => 2 case LogRel => 1)
    case Req(WantQ) => bytes + 24
    case _ => StepsLeft(t.pc) + ReadsLeft(t)
  }

  /** One step nearer to the answer. */
  ghost predicate Nearer(t: Thread, t': Thread) {
    SameRequest(t, t') && (Ended(t'.pc) || (Busy(t'.pc) && ToAnswer(t') < ToAnswer(t)))
  }

  lemma FileNearer(cfg: Config, sh: Shared, t: Thread)
    requires Fetch(t.pc).FileOp? && !FileStep(cfg, sh, t).1.pc.Crashed?
    ensures Nearer(t, FileStep(cfg, sh, t).1)
  {
    FileStepsLeft(cfg, sh, t);
    FileReadsLeft(cfg, sh, t);
    FileStaysBusy(cfg, sh, t);
  }

  lemma FileStaysBusy(cfg: Config, sh: Shared, t: Thread)
    requires Fetch(t.pc).FileOp?
    ensures var pc := FileStep(cfg, sh, t).1.pc;
            pc.Crashed? || Ended(pc) || (Busy(pc) && pc != Req(WantQ) && !(pc.Logging? && pc.at == BeforeQueue))
  {
    match t.pc
    case Req(r) => ReqStaysBusy(cfg, sh, t, r);
    case Locking(l) => LockStaysBusy(cfg, sh, t, l);
    case Section(s) =>
    case Marking(k, m) =>
  }

  lemma ReqStaysBusy(cfg: Config, sh: Shared, t: Thread, r: ReqPC)
    requires FetchReq(r).FileOp?
    ensures var pc := ReqStep(cfg, sh, t, r).1.pc;
            Ended(pc) || (Busy(pc) && pc != Req(WantQ) && !(pc.Logging? && pc.at == BeforeQueue))
  {
  }

  lemma LockStaysBusy(cfg: Config, sh: Shared, t: Thread, l: LockPC)
    requires FetchLocking(l).FileOp?
    ensures var pc := LockStep(cfg, sh, t, l).1.pc;
            Ended(pc) || (Busy(pc) && pc != Req(WantQ) && !pc.Logging?)
  {
  }

  lemma MoveNearer(t: Thread)
    requires Busy(t.pc) && Moves(Fetch(t.pc))
    ensures Nearer(t, t.(pc := Fetch(t.pc).next))
  {
    if t.pc.Logging? || t.pc == Req(WantQ) {
    } else {
      MoveStepsLeft(t.pc);
      MoveReadsLeft(t);
      MoveStaysBusy(t.pc);
    }
  }

  lemma MoveStaysBusy(pc: PC)
    requires Busy(pc) && Moves(Fetch(pc)) && !pc.Logging? && pc != Req(WantQ)
    ensures !HoldsNothing(Fetch(pc).next)
    ensures var n := Fetch(pc).next; Ended(n) || (Busy(n) && n != Req(WantQ) && !n.Logging?)
  {
    assert Holds(Fetch(pc).next, QueueM);
  }

  lemma BusyActs(pc: PC)
    requires Busy(pc)
    ensures Moves(Fetch(pc)) || Fetch(pc).FileOp? || pc == Section(Receive)
    ensures !Fetch(pc).Asleep?
  {
  }

  lemma BusyStep(cfg: Config, s: State, i: nat, ch: Choice)
    requires Inv(cfg, s) && Enabled(s, i, ch) && Busy(s.threads[i].pc)
    ensures Nearer(s.threads[i], Fire(cfg, s, i, ch).threads[i])
  {
    var t := s.threads[i];
    SelfDoesNotCrash(cfg, s, i, ch);
    BusyNearer(cfg, s, i, ch);
  }

  lemma BusyNearer(cfg: Config, s: State, i: nat, ch: Choice)
    requires Enabled(s, i, ch) && Busy(s.threads[i].pc) && !Fire(cfg, s, i, ch).threads[i].pc.Crashed?
    ensures Nearer(s.threads[i], Fire(cfg, s, i, ch).threads[i])
  {
    var t := s.threads[i];
    BusyActs(t.pc);
    StepSelf(cfg, s, i, ch);
    if Fetch(t.pc).FileOp? {
      FileNearer(cfg, s.sh, t);
    } else if t.pc != Section(Receive) {
      MoveNearer(t);
    }
  }

  lemma BusyMove(cfg: Config, s: State, m: Move, s': State, w: nat)
    requires Inv(cfg, s) && IsStep(cfg, s, m, s') && w < |s.threads| && Busy(s.threads[w].pc)
    ensures w < |s'.threads|
    ensures if m.who == w then Nearer(s.threads[w], s'.threads[w]) else s'.threads[w] == s.threads[w]
  {
    if m.who == w {
      BusyStep(cfg, s, w, m.ch);
    } else {
      BusyActs(s.threads[w].pc);
      StepFrame(cfg, s, m.who, m.ch, w);
    }
  }

  lemma BusyAt(cfg: Config, tr: seq<State>, mv: seq<Move>, k: nat, w: nat)
    requires IsRun(cfg, tr, mv) && k < |mv| && w < |tr[k].threads| && Busy(tr[k].threads[w].pc)
    ensures w < |tr[k + 1].threads|
    ensures if mv[k].who == w then Nearer(tr[k].threads[w], tr[k + 1].threads[w])
            else tr[k + 1].threads[w] == tr[k].threads[w]
  {
    var s, m, s' := tr[k], mv[k], tr[k + 1];
    assert Inv(cfg, s) && IsStep(cfg, s, m, s') by { RunStep(cfg, tr, mv, k); }
    BusyMove(cfg, s, m, s', w);
  }

  /** In state `c` the request of `t` has come to its end. */
  ghost predicate EndsAt(tr: seq<State>, c: nat, w: nat, t: Thread) {
    c < |tr| && w < |tr[c].threads| && Ended(tr[c].threads[w].pc) && SameRequest(t, tr[c].threads[w])
  }

  ghost predicate StillBusy(t: Thread, t': Thread, steps: nat) {
    SameRequest(t, t') && Busy(t'.pc) && steps + ToAnswer(t') <= ToAnswer(t)
  }

  lemma {:induction false} RequestEnds(cfg: Config, tr: seq<State>, mv: seq<Move>, a: nat, b: nat, w: nat)
    requires IsRun(cfg, tr, mv) && a <= b < |tr| && w < |tr[a].threads| && Busy(tr[a].threads[w].pc)
    ensures w < |tr[b].threads|
    ensures || (exists c :: a <= c <= b && EndsAt(tr, c, w, tr[a].threads[w]))
            || StillBusy(tr[a].threads[w], tr[b].threads[w], OwnSteps(mv, a, b, w))
    decreases b
  {
    if a != b {
      RequestEnds(cfg, tr, mv, a, b - 1, w);
      RequestGoesOn(cfg, tr, mv, a, b - 1, w);
    }
  }

  lemma SameThreads(cfg: Config, tr: seq<State>, mv: seq<Move>, k: nat)
    requires IsRun(cfg, tr, mv) && k < |mv|
    ensures |tr[k + 1].threads| == |tr[k].threads|
  {
    assert StepAt(cfg, tr, mv, k);
  }

  lemma RequestGoesOn(cfg: Config, tr: seq<State>, mv: seq<Move>, a: nat, b: nat, w: nat)
    requires IsRun(cfg, tr, mv) && a <= b < |mv| && w < |tr[a].threads| && w < |tr[b].threads|
    requires || (exists c :: a <= c <= b && EndsAt(tr, c, w, tr[a].threads[w]))
             || StillBusy(tr[a].threads[w], tr[b].threads[w], OwnSteps(mv, a, b, w))
    ensures w < |tr[b + 1].threads|
    ensures || (exists c :: a <= c <= b + 1 && EndsAt(tr, c, w, tr[a].threads[w]))
            || StillBusy(tr[a].threads[w], tr[b + 1].threads[w], OwnSteps(mv, a, b + 1, w))
  {
    SameThreads(cfg, tr, mv, b);
    if c :| a <= c <= b && EndsAt(tr, c, w, tr[a].threads[w]) {
      assert a <= c <= b + 1;
    } else {
      BusyAt(cfg, tr, mv, b, w);
      if Ended(tr[b + 1].threads[w].pc) {
        assert EndsAt(tr, b + 1, w, tr[a].threads[w]);
      }
    }
  }

  /** The wait a request may end in: for an open file that another client owns. */
  ghost predicate MustWait(files: Store, t: Thread) {
    t.pc == Locking(DropQ) && (t.req.Open? || t.req.Lock?) && Blocked(files, t.req.path, t.client)
  }

  lemma EndsWell(cfg: Config, tr: seq<State>, mv: seq<Move>, c: nat, w: nat)
    requires IsRun(cfg, tr, mv) && c < |tr| && w < |tr[c].threads| && Ended(tr[c].threads[w].pc)
    ensures tr[c].threads[w].pc == Req(Reply) || MustWait(tr[c].sh.files, tr[c].threads[w])
  {
    RunsKeepInv(cfg, tr, mv, c);
    HolderAsserts(cfg, tr[c], w);
    WaitIsMet(cfg, tr[c].sh, tr[c].threads[w]);
  }

  lemma WaitIsMet(cfg: Config, sh: Shared, t: Thread)
    requires Assertion(cfg, sh, t) && Ended(t.pc)
    ensures t.pc == Req(Reply) || MustWait(sh.files, t)
  {
    if t.pc == Locking(DropQ) {
      BlockedIffWait(cfg, sh.files, t.client, t.req);
    }
  }

  lemma BusyBound(t: Thread)
    requires Busy(t.pc)
    ensures 0 < ToAnswer(t)
    ensures t.pc != Section(Receive) ==> ToAnswer(t) <= 27 + if IsSection(t.req) then |t.req.data| else 0
  {
  }

  /** Every request is answered or has to wait. Whatever the others do, `ToAnswer` steps of its own, which
      are at most 27 and one for each byte of a write or append, bring a thread that serves a request to
      the answer, or to the wait for an open file of another client. */
  lemma RequestIsAnswered(cfg: Config, tr: seq<State>, mv: seq<Move>, a: nat, b: nat, w: nat)
    requires IsRun(cfg, tr, mv) && a <= b < |tr| && w < |tr[a].threads| && Busy(tr[a].threads[w].pc)
    requires OwnSteps(mv, a, b, w) >= ToAnswer(tr[a].threads[w])
    ensures var t := tr[a].threads[w];
            t.pc != Section(Receive) ==> ToAnswer(t) <= 27 + if IsSection(t.req) then |t.req.data| else 0
    ensures exists c :: a <= c <= b && EndsAt(tr, c, w, tr[a].threads[w])
              && (tr[c].threads[w].pc == Req(Reply) || MustWait(tr[c].sh.files, tr[c].threads[w]))
  {
    RequestEnds(cfg, tr, mv, a, b, w);
    BusyBound(tr[a].threads[w]);
    if Busy(tr[b].threads[w].pc) {
      BusyBound(tr[b].threads[w]);
    }
    var c :| a <= c <= b && EndsAt(tr, c, w, tr[a].threads[w]);
    EndsWell(cfg, tr, mv, c, w);
  }
}
