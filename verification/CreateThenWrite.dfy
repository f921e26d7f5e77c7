/** The client's script for storing a file: create it locked, then write it. No interleaving of
    other clients' requests can come between the two. */
module CreateThenWrite {
  import opened Files
  import opened EventLog
  import opened LogTheorems
  import opened Server
  import opened ServerMutex
  import opened ServerStore
  import opened ServerPool
  import opened ServerRuns
  import opened ServerTheorems

  /** `p` is as its creation left it: empty, open, locked by `c`. */
  ghost predicate Fresh(files: Store, p: Path, c: ClientId) {
    Has(files, p) && Get(files, p) == File(p, [], c, true)
  }

  /** No event of another client touches it; in particular it is never an eviction victim, since
      a victim has to bring room and an empty file brings none. */
  lemma FreshSurvives(cfg: Config, s: Store, e: Event, p: Path, c: ClientId)
    requires Distinct(s) && Legal(cfg, s, e) && Fresh(s, p, c) && e.actor != c
    ensures Fresh(Apply(s, e), p, c)
  {
    LookAfter(cfg, s, e, p);
  }

  lemma CreatedIsFresh(cfg: Config, s: Store, p: Path, c: ClientId)
    requires OpenFile(cfg, s, p, true, true, c).status == OK
    ensures Fresh(OpenFile(cfg, s, p, true, true, c).files, p, c)
  {
    FindIs(s + [File(p, [], c, true)], p, |s|);
  }

  /** Where worker `w` can be between the answer to its create and the answer to its next request,
      and what it can rely on if that request is the write. */
  ghost predicate InBetween(files: Store, t: Thread, c: ClientId, p: Path, data: seq<Byte>) {
    && !t.pc.Main? && !t.pc.Signal? && !t.pc.Crashed?
    && (t.pc.Conn? ==> Fresh(files, p, c))
    && (!t.pc.Conn? && t.req == Write(p, data) ==>
          if t.pc == Req(WantQ) || t.pc == Req(Dispatch) then Fresh(files, p, c)
          else Fresh(t.snap, p, c) && (t.pc.Section? || t.pc.Marking? || InRoomLog(t.pc) || t.pc == Req(Reply)))
  }

  ghost predicate Between(s: State, w: nat, c: ClientId, p: Path, data: seq<Byte>) {
    w < |s.threads| && InBetween(s.sh.files, s.threads[w], c, p, data)
  }

  lemma OthersKeepBetween(cfg: Config, s: State, i: nat, ch: Choice, w: nat, c: ClientId, p: Path, data: seq<Byte>)
    requires Inv(cfg, s) && Enabled(s, i, ch) && i != w && Between(s, w, c, p, data)
    requires Fetch(s.threads[i].pc).FileOp? ==> s.threads[i].client != c
    ensures Between(Fire(cfg, s, i, ch), w, c, p, data)
  {
    var s' := Fire(cfg, s, i, ch);
    OthersKeepFresh(cfg, s, i, ch, p, c);
    StepFrame(cfg, s, i, ch, w);
    WokenSameKind(s.threads[w]);
  }

  lemma WokenSameKind(t: Thread)
    ensures Fetch(t.pc).Asleep? ==> t.pc == Conn(AsleepConn) || t.pc == Locking(AsleepL)
    ensures t.pc == Conn(AsleepConn) ==> Wake(t) == t.(pc := Conn(WokenConn))
    ensures t.pc == Locking(AsleepL) ==> Wake(t) == t.(pc := Locking(WokenL))
  {
  }

  lemma OthersKeepFresh(cfg: Config, s: State, i: nat, ch: Choice, p: Path, c: ClientId)
    requires Inv(cfg, s) && Enabled(s, i, ch)
    requires Fetch(s.threads[i].pc).FileOp? ==> s.threads[i].client != c
    ensures Fresh(s.sh.files, p, c) ==> Fresh(Fire(cfg, s, i, ch).sh.files, p, c)
  {
    var s' := Fire(cfg, s, i, ch);
    TableFrame(cfg, s, i, ch);
    InvStep(cfg, s, i, ch);
    if s'.sh.files != s.sh.files && Fresh(s.sh.files, p, c) {
      RunsStayWellFormed(cfg, s.sh.log);
      var e: Event :| e.actor == s.threads[i].client && Legal(cfg, s.sh.files, e) && s'.sh.files == Apply(s.sh.files, e);
      FreshSurvives(cfg, s.sh.files, e, p, c);
    }
  }

  lemma PoolLeadsToRequest(pool: Pool, t: Thread, ch: Choice)
    requires Fetch(t.pc).PoolOp? || Fetch(t.pc).FromOutside?
    requires t.pc.Conn?
    ensures var t' := PoolStep(pool, t, ch).1;
            || t'.pc.Conn? || t'.pc == Req(WantQ) || t'.pc.Crashed?
            || (t'.pc == Logging(BeforeQueue, LogWant) && !t'.req.Write?)
  {
  }

  lemma PoolKeepsBetween(files: Store, pool: Pool, t: Thread, ch: Choice, c: ClientId, p: Path, data: seq<Byte>)
    requires Fetch(t.pc).PoolOp? || Fetch(t.pc).FromOutside?
    requires InBetween(files, t, c, p, data) && !PoolStep(pool, t, ch).1.pc.Crashed?
    ensures InBetween(files, PoolStep(pool, t, ch).1, c, p, data)
  {
    PoolLeadsToRequest(pool, t, ch);
  }

  lemma MovesKeepBetween(pc: PC)
    requires !Fetch(pc).FileOp? && !Fetch(pc).PoolOp? && !Fetch(pc).FromOutside? && !Fetch(pc).Halt?
    requires pc != Section(Receive)
    ensures pc.Conn? ==> Fetch(pc).next.Conn?
    ensures pc == Req(WantQ) ==> Fetch(pc).next == Req(Dispatch)
    ensures pc.Section? ==> Fetch(pc).next.Section?
    ensures InRoomLog(pc) ==> InRoomLog(Fetch(pc).next) || Fetch(pc).next.Section?
    ensures pc.Marking? ==> Fetch(pc).next.Marking? || Fetch(pc).next == AfterMark(pc.k)
    ensures pc != Req(Reply) && !pc.Main? && !pc.Signal? && Fetch(pc).next.Conn? ==> pc.Conn?
    ensures pc.Req? || pc.Locking? || pc.Logging? ==>
              !Fetch(pc).next.Main? && !Fetch(pc).next.Signal? && !Fetch(pc).next.Crashed?
  {
  }

  lemma FileStepsKeepBetween(cfg: Config, sh: Shared, t: Thread)
    requires Fetch(t.pc).FileOp? && t.req.Write? && Assertion(cfg, sh, t)
    requires t.pc == Req(Dispatch) || t.pc.Section? || t.pc.Marking?
    ensures var t' := FileStep(cfg, sh, t).1;
            t'.pc.Section? || t'.pc.Marking? || InRoomLog(t'.pc) || t'.pc == Req(Reply)
  {
  }

  lemma FileKeepsBetween(cfg: Config, sh: Shared, t: Thread, c: ClientId, p: Path, data: seq<Byte>)
    requires Fetch(t.pc).FileOp? && Assertion(cfg, sh, t) && InBetween(sh.files, t, c, p, data)
    requires !FileStep(cfg, sh, t).1.pc.Crashed?
    ensures InBetween(FileStep(cfg, sh, t).0.files, FileStep(cfg, sh, t).1, c, p, data)
  {
    FileSelf(cfg, sh, t);
    SnapshotKept(cfg, sh, t);
    if t.req == Write(p, data) {
      FileStepsKeepBetween(cfg, sh, t);
    }
  }

  lemma MoveKeepsBetween(files: Store, t: Thread, c: ClientId, p: Path, data: seq<Byte>)
    requires Moves(Fetch(t.pc))
    requires InBetween(files, t, c, p, data) && (t.pc == Req(Reply) ==> Fresh(files, p, c))
    requires t.pc.Marking? && t.pc.k == NumFile ==> t.req.Open?
    ensures InBetween(files, t.(pc := Fetch(t.pc).next), c, p, data)
  {
    MovesKeepBetween(t.pc);
  }

  /** A step that leaves the table alone. */
  lemma IdleKeepsBetween(cfg: Config, s: State, w: nat, ch: Choice, c: ClientId, p: Path, data: seq<Byte>)
    requires Enabled(s, w, ch) && !Fetch(s.threads[w].pc).FileOp? && Between(s, w, c, p, data)
    requires s.threads[w].pc == Req(Reply) ==> Fresh(s.sh.files, p, c)
    requires s.threads[w].pc.Marking? && s.threads[w].pc.k == NumFile ==> s.threads[w].req.Open?
    requires !Fire(cfg, s, w, ch).threads[w].pc.Crashed?
    ensures Between(Fire(cfg, s, w, ch), w, c, p, data)
  {
    var t := s.threads[w];
    TableFrame(cfg, s, w, ch);
    StepSelf(cfg, s, w, ch);
    if Fetch(t.pc).PoolOp? || Fetch(t.pc).FromOutside? {
      PoolKeepsBetween(s.sh.files, s.pool, t, ch, c, p, data);
    } else if t.pc != Section(Receive) {
      MoveKeepsBetween(s.sh.files, t, c, p, data);
    }
  }

  lemma SelfKeepsBetween(cfg: Config, s: State, w: nat, ch: Choice, c: ClientId, p: Path, data: seq<Byte>)
    requires Exclusive(s) && TableInv(cfg, s) && Enabled(s, w, ch) && Between(s, w, c, p, data)
    requires s.threads[w].pc == Req(Reply) ==> Fresh(s.sh.files, p, c)
    requires !Fire(cfg, s, w, ch).threads[w].pc.Crashed?
    ensures Between(Fire(cfg, s, w, ch), w, c, p, data)
  {
    var t := s.threads[w];
    if Fetch(t.pc).FileOp? || t.pc.Marking? {
      FileOpsHoldQueue(t.pc);
      HolderAsserts(cfg, s, w);
    }
    if Fetch(t.pc).FileOp? {
      TableFrame(cfg, s, w, ch);
      FileKeepsBetween(cfg, s.sh, t, c, p, data);
    } else {
      IdleKeepsBetween(cfg, s, w, ch, c, p, data);
    }
  }

  /** Between states `a` and `b` only worker `w` acts for client `c`, and `w` answers nothing. */
  ghost predicate OnlyWorker(tr: seq<State>, mv: seq<Move>, a: nat, b: nat, w: nat, c: ClientId)
    requires |tr| == |mv| + 1 && a < b < |tr|
  {
    && (forall k :: a <= k < b ==> ActsFor(tr[k], mv[k], w, c))
    && (forall k :: a < k < b ==> w < |tr[k].threads| && tr[k].threads[w].pc != Req(Reply))
  }

  ghost predicate ActsFor(s: State, m: Move, w: nat, c: ClientId) {
    m.who != w && m.who < |s.threads| && Fetch(s.threads[m.who].pc).FileOp? ==> s.threads[m.who].client != c
  }

  lemma BetweenNext(cfg: Config, s: State, m: Move, s': State, w: nat, c: ClientId, p: Path, data: seq<Byte>)
    requires Inv(cfg, s) && IsStep(cfg, s, m, s') && ActsFor(s, m, w, c) && Between(s, w, c, p, data)
    requires s.threads[w].pc == Req(Reply) ==> Fresh(s.sh.files, p, c)
    ensures Between(s', w, c, p, data)
  {
    if m.who == w {
      SelfDoesNotCrash(cfg, s, w, m.ch);
      SelfKeepsBetween(cfg, s, w, m.ch, c, p, data);
    } else {
      OthersKeepBetween(cfg, s, m.who, m.ch, w, c, p, data);
    }
  }

  lemma BetweenAt(cfg: Config, tr: seq<State>, mv: seq<Move>, k: nat, w: nat, c: ClientId, p: Path, data: seq<Byte>)
    requires IsRun(cfg, tr, mv) && k < |mv|
    requires ActsFor(tr[k], mv[k], w, c) && Between(tr[k], w, c, p, data)
    requires tr[k].threads[w].pc == Req(Reply) ==> Fresh(tr[k].sh.files, p, c)
    ensures Between(tr[k + 1], w, c, p, data)
  {
    RunStep(cfg, tr, mv, k);
    BetweenNext(cfg, tr[k], mv[k], tr[k + 1], w, c, p, data);
  }

  lemma {:induction false} BetweenOverRun(cfg: Config, tr: seq<State>, mv: seq<Move>, a: nat, b: nat, w: nat,
                                          c: ClientId, p: Path, data: seq<Byte>)
    requires IsRun(cfg, tr, mv) && a < b < |tr| && OnlyWorker(tr, mv, a, b, w, c)
    requires Between(tr[a], w, c, p, data) && Fresh(tr[a].sh.files, p, c)
    ensures Between(tr[b], w, c, p, data)
    decreases b
  {
    assert ActsFor(tr[b - 1], mv[b - 1], w, c);
    if a < b - 1 {
      assert OnlyWorker(tr, mv, a, b - 1, w, c);
      BetweenOverRun(cfg, tr, mv, a, b - 1, w, c, p, data);
    }
    BetweenAt(cfg, tr, mv, b - 1, w, c, p, data);
  }

  /** After the answer to a successful create, `p` is fresh for its creator. */
  lemma CreateAnswered(cfg: Config, s: State, w: nat, c: ClientId, p: Path, data: seq<Byte>)
    requires Inv(cfg, s) && w < |s.threads| && s.threads[w].pc == Req(Reply) && s.threads[w].status == OK
    requires s.threads[w].client == c && s.threads[w].req == Open(p, true, true)
    ensures Between(s, w, c, p, data) && Fresh(s.sh.files, p, c)
  {
    HolderAsserts(cfg, s, w);
    CreatedIsFresh(cfg, s.threads[w].snap, p, c);
  }

  /** How the write of a fresh file's creator ends, given the table `began` its critical section began
      with: with success and exactly its data in the file; or refused with nothing changed, because
      no single file freed enough room; or, for a write of no bytes that finds the unset variable
      at -1, without an answer and with nothing changed. */
  ghost predicate WriteEnds(cfg: Config, began: Store, files: Store, t: Thread, p: Path, c: ClientId, data: seq<Byte>) {
    && Fresh(began, p, c)
    && if data == [] && t.unset == -1 then t.status == UNANSWERED && files == began
       else if MakeRoom(cfg, began, |data|) == None then t.status == FAIL && files == began
       else t.status == OK && Has(files, p) && Get(files, p) == File(p, data, c, true)
  }

  lemma WriteAnswered(cfg: Config, s: State, w: nat, c: ClientId, p: Path, data: seq<Byte>)
    requires Inv(cfg, s) && w < |s.threads| && s.threads[w].pc == Req(Reply)
    requires s.threads[w].client == c && s.threads[w].req == Write(p, data) && |data| <= cfg.maxMem
    requires Fresh(s.threads[w].snap, p, c)
    ensures WriteEnds(cfg, s.threads[w].snap, s.sh.files, s.threads[w], p, c, data)
  {
    HolderAsserts(cfg, s, w);
    WriteAfterCreate(cfg, s.threads[w].snap, c, p, data);
  }

  // ----- Where the table a request began with comes from -----

  /** The thread has looked at the table for its request. */
  predicate HasLooked(pc: PC) {
    pc.Locking? || pc.Section? || pc.Marking? || pc == Req(Simple) || pc == Req(Reply)
    || (pc.Logging? && pc.at != BeforeQueue)
  }

  lemma MovesAfterLook(pc: PC)
    requires Moves(Fetch(pc))
    ensures HasLooked(Fetch(pc).next) ==> HasLooked(pc) && pc != Req(Reply)
  {
  }

  /** A thread that has looked either did so in this step, or before and is still at it. */
  lemma LookStep(cfg: Config, s: State, i: nat, ch: Choice, w: nat)
    requires Enabled(s, i, ch) && w < |s.threads| && HasLooked(Fire(cfg, s, i, ch).threads[w].pc)
    ensures var t, t' := s.threads[w], Fire(cfg, s, i, ch).threads[w];
            || t' == t
            || (HasLooked(t.pc) && t.pc != Req(Reply) && t'.snap == t.snap)
            || (t.pc == Req(Dispatch) && t'.snap == s.sh.files)
  {
    var t := s.threads[w];
    if w != i {
      StepFrame(cfg, s, i, ch, w);
      WokenSameKind(t);
    } else {
      StepSelf(cfg, s, i, ch);
      if Fetch(t.pc).FileOp? {
        SnapshotKept(cfg, s.sh, t);
      } else if Fetch(t.pc).PoolOp? || Fetch(t.pc).FromOutside? {
        PoolNeverLooks(s.pool, t, ch);
      } else if !Fetch(t.pc).Halt? && t.pc != Section(Receive) {
        MovesAfterLook(t.pc);
      }
    }
  }

  lemma PoolNeverLooks(pool: Pool, t: Thread, ch: Choice)
    requires Fetch(t.pc).PoolOp? || Fetch(t.pc).FromOutside?
    ensures !HasLooked(PoolStep(pool, t, ch).1.pc)
  {
  }

  ghost predicate SeenSince(tr: seq<State>, a: nat, k: nat, files: Store) {
    exists m :: a < m < k <= |tr| && tr[m].sh.files == files
  }

  /** After an answer in state `a`, the table a thread has looked at is the table of a later state. */
  lemma {:induction false} LookedSince(cfg: Config, tr: seq<State>, mv: seq<Move>, a: nat, k: nat, w: nat)
    requires IsRun(cfg, tr, mv) && a <= k < |tr| && w < |tr[a].threads| && tr[a].threads[w].pc == Req(Reply)
    ensures w < |tr[k].threads|
    ensures HasLooked(tr[k].threads[w].pc) ==>
              tr[k].threads[w] == tr[a].threads[w] || SeenSince(tr, a, k, tr[k].threads[w].snap)
    decreases k
  {
    if a < k {
      LookedSince(cfg, tr, mv, a, k - 1, w);
      LookedNext(cfg, tr, mv, a, k - 1, w);
    }
  }

  lemma LookedNext(cfg: Config, tr: seq<State>, mv: seq<Move>, a: nat, k: nat, w: nat)
    requires IsRun(cfg, tr, mv) && a <= k < |mv| && w < |tr[a].threads| && tr[a].threads[w].pc == Req(Reply)
    requires w < |tr[k].threads|
    requires HasLooked(tr[k].threads[w].pc) ==>
               tr[k].threads[w] == tr[a].threads[w] || SeenSince(tr, a, k, tr[k].threads[w].snap)
    ensures w < |tr[k + 1].threads|
    ensures HasLooked(tr[k + 1].threads[w].pc) ==>
              tr[k + 1].threads[w] == tr[a].threads[w] || SeenSince(tr, a, k + 1, tr[k + 1].threads[w].snap)
  {
    RunStep(cfg, tr, mv, k);
    if HasLooked(tr[k + 1].threads[w].pc) {
      LookMove(cfg, tr[k], mv[k], tr[k + 1], w);
      if tr[k].threads[w].pc == Req(Dispatch) {
        assert a != k;
      } else if tr[k].threads[w] != tr[a].threads[w] {
        var m :| a < m < k <= |tr| && tr[m].sh.files == tr[k].threads[w].snap;
        assert a < m < k + 1;
      }
    }
  }

  lemma LookMove(cfg: Config, s: State, m: Move, s': State, w: nat)
    requires IsStep(cfg, s, m, s') && w < |s.threads| && HasLooked(s'.threads[w].pc)
    ensures var t, t' := s.threads[w], s'.threads[w];
            || t' == t
            || (HasLooked(t.pc) && t.pc != Req(Reply) && t'.snap == t.snap)
            || (t.pc == Req(Dispatch) && t'.snap == s.sh.files)
  {
    LookStep(cfg, s, m.who, m.ch, w);
  }

  /** Create-then-write is safe under interference. Once the server has answered a client's create
      of `p` with success, and the client's next request is a write to `p` of a size the memory can
      hold, then whatever all other clients do meanwhile, the write ends as `WriteEnds` says, for
      the table of some state in between: it succeeds unless no single file freed enough room
      there. */
  lemma CreateThenWriteSucceeds(cfg: Config, tr: seq<State>, mv: seq<Move>, a: nat, b: nat, w: nat,
                                c: ClientId, p: Path, data: seq<Byte>)
    requires IsRun(cfg, tr, mv) && a < b < |tr| && OnlyWorker(tr, mv, a, b, w, c) && |data| <= cfg.maxMem
    requires w < |tr[a].threads| && w < |tr[b].threads|
    requires tr[a].threads[w].pc == Req(Reply) && tr[a].threads[w].client == c
             && tr[a].threads[w].req == Open(p, true, true) && tr[a].threads[w].status == OK
    requires tr[b].threads[w].pc == Req(Reply) && tr[b].threads[w].client == c && tr[b].threads[w].req == Write(p, data)
    ensures exists m :: a < m < b && WriteEnds(cfg, tr[m].sh.files, tr[b].sh.files, tr[b].threads[w], p, c, data)
  {
    RunsKeepInv(cfg, tr, mv, a);
    CreateAnswered(cfg, tr[a], w, c, p, data);
    BetweenOverRun(cfg, tr, mv, a, b, w, c, p, data);
    RunsKeepInv(cfg, tr, mv, b);
    WriteAnswered(cfg, tr[b], w, c, p, data);
    LookedSince(cfg, tr, mv, a, b, w);
    var m :| a < m < b <= |tr| && tr[m].sh.files == tr[b].threads[w].snap;
    assert WriteEnds(cfg, tr[m].sh.files, tr[b].sh.files, tr[b].threads[w], p, c, data);
  }
}
