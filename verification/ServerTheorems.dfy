/** What the invariant means over whole runs, for any number of workers and any schedule. */
module ServerTheorems {
  import opened Files
  import opened EventLog
  import opened LogTheorems
  import opened MachineInts
  import opened Operations
  import opened Server
  import opened ServerMutex
  import opened ServerStore
  import opened ServerPool
  import opened ServerRuns

  // ----- The table -----

  /** In every reachable state names are distinct, sizes fit the memory, the file count fits the
      limit, and the table is the log of its legal events replayed. */
  lemma TableOverRuns(cfg: Config, tr: seq<State>, mv: seq<Move>, k: nat)
    requires IsRun(cfg, tr, mv) && k < |tr|
    ensures WellFormed(cfg, tr[k].sh.files)
    ensures LegalLog(cfg, tr[k].sh.log) && tr[k].sh.files == Rebuild(tr[k].sh.log)
  {
    RunsKeepInv(cfg, tr, mv, k);
    RunsStayWellFormed(cfg, tr[k].sh.log);
  }

  /** In every reachable state the machine's free space is the exact, non-negative one, its mixed
      comparison decides what the mathematical one decides, and for a request of a
      sound size it picks the first fit. */
  lemma ArithmeticOverRuns(cfg: Config, tr: seq<State>, mv: seq<Move>, k: nat, need: nat)
    requires IsRun(cfg, tr, mv) && k < |tr| && cfg.maxMem <= INT_MAX
    ensures var files := tr[k].sh.files;
            && MachineFree(cfg, files) == Free(cfg, files) >= 0
            && (MachineNeedsRoom(cfg, files, need) <==> Free(cfg, files) < need)
            && (SoundSize(cfg, need) ==>
                  MachineVictim(files, MachineFree(cfg, files), need) == FirstFit(files, Free(cfg, files), need))
  {
    TableOverRuns(cfg, tr, mv, k);
    FreeIsExact(cfg, tr[k].sh.files, need);
    if SoundSize(cfg, need) {
      VictimIsExact(cfg, tr[k].sh.files, need);
    }
  }

  /** A thread that serves a request got it from the outside, so it is a sound one. */
  ghost predicate ServesSound(cfg: Config, t: Thread) {
    t.pc.Req? || t.pc.Locking? || t.pc.Section? || t.pc.Marking? || t.pc.Logging? ==> SoundRequest(cfg, t.req)
  }

  lemma SoundStep(cfg: Config, s: State, i: nat, ch: Choice, w: nat)
    requires Enabled(s, i, ch) && w < |s.threads| && ServesSound(cfg, s.threads[w]) && SoundRequest(cfg, ch.req)
    ensures ServesSound(cfg, Fire(cfg, s, i, ch).threads[w])
  {
    if w != i {
      StepFrame(cfg, s, i, ch, w);
    } else {
      StepSelf(cfg, s, i, ch);
      if Fetch(s.threads[i].pc).FileOp? {
        FileSelf(cfg, s.sh, s.threads[i]);
      }
    }
  }

  lemma SoundAt(cfg: Config, tr: seq<State>, mv: seq<Move>, k: nat)
    requires IsRun(cfg, tr, mv) && k < |mv|
    ensures |tr[k + 1].threads| == |tr[k].threads|
    ensures forall w :: 0 <= w < |tr[k].threads| && ServesSound(cfg, tr[k].threads[w]) ==>
              ServesSound(cfg, tr[k + 1].threads[w])
  {
    var s, m, s' := tr[k], mv[k], tr[k + 1];
    assert IsStep(cfg, s, m, s') && SoundRequest(cfg, m.ch.req) by { RunStep(cfg, tr, mv, k); }
    forall w: nat | w < |s.threads| && ServesSound(cfg, s.threads[w]) ensures ServesSound(cfg, s'.threads[w]) {
      SoundMove(cfg, s, m, s', w);
    }
  }

  lemma {:induction false} RequestsAreSound(cfg: Config, tr: seq<State>, mv: seq<Move>, k: nat, w: nat)
    requires IsRun(cfg, tr, mv) && k < |tr| && w < |tr[k].threads|
    ensures ServesSound(cfg, tr[k].threads[w])
    decreases k
  {
    if k > 0 {
      SoundAt(cfg, tr, mv, k - 1);
      RequestsAreSound(cfg, tr, mv, k - 1, w);
    }
  }

  lemma SoundMove(cfg: Config, s: State, m: Move, s': State, w: nat)
    requires IsStep(cfg, s, m, s') && w < |s.threads| && ServesSound(cfg, s.threads[w]) && SoundRequest(cfg, m.ch.req)
    ensures ServesSound(cfg, s'.threads[w])
  {
    SoundStep(cfg, s, m.who, m.ch, w);
  }

  /** Where a thread is about to look for room, the machine's comparison and the machine's victim are
      the ones this model goes by, whatever the request. */
  lemma RoomIsTheMachines(cfg: Config, tr: seq<State>, mv: seq<Move>, k: nat, w: nat)
    requires IsRun(cfg, tr, mv) && k < |tr| && w < |tr[k].threads| && cfg.maxMem <= INT_MAX
    requires tr[k].threads[w].pc == Section(SectionPC.Room)
    ensures IsSection(tr[k].threads[w].req)
    ensures MachineRoom(cfg, tr[k].sh.files, |tr[k].threads[w].req.data|)
            == Operations.Room(cfg, tr[k].sh.files, tr[k].threads[w].req)
  {
    TableOverRuns(cfg, tr, mv, k);
    RequestsAreSound(cfg, tr, mv, k, w);
    RoomAsserts(cfg, tr, mv, k, w);
    RoomIsExact(cfg, tr[k].sh.files, |tr[k].threads[w].req.data|);
  }

  lemma RoomAsserts(cfg: Config, tr: seq<State>, mv: seq<Move>, k: nat, w: nat)
    requires IsRun(cfg, tr, mv) && k < |tr| && w < |tr[k].threads|
    requires tr[k].threads[w].pc == Section(SectionPC.Room)
    ensures IsSection(tr[k].threads[w].req)
    ensures tr[k].threads[w].req.Write? ==> |tr[k].threads[w].req.data| <= cfg.maxMem
  {
    RunsKeepInv(cfg, tr, mv, k);
    HolderAsserts(cfg, tr[k], w);
  }

  /** Each step records at most one event, made for the client of the stepping thread. */
  lemma StepOverRuns(cfg: Config, tr: seq<State>, mv: seq<Move>, k: nat)
    requires IsRun(cfg, tr, mv) && k < |mv|
    ensures mv[k].who < |tr[k].threads|
    ensures OneEvent(cfg, tr[k].sh, tr[k + 1].sh, tr[k].threads[mv[k].who].client)
    ensures WellFormed(cfg, tr[k].sh.files)
  {
    TableOverRuns(cfg, tr, mv, k);
    RunStep(cfg, tr, mv, k);
    InvStep(cfg, tr[k], mv[k].who, mv[k].ch);
  }

  /** Lock ownership: a present file's owner changes only from 0 to the client a step is made for, by
      its lock, or from that client to 0, by its unlock. A file leaves by a delete made for its owner
      or, not empty, by eviction; it comes only new and empty. */
  lemma OwnershipOverRuns(cfg: Config, tr: seq<State>, mv: seq<Move>, k: nat, p: Path)
    requires IsRun(cfg, tr, mv) && k < |mv|
    ensures mv[k].who < |tr[k].threads|
    ensures var s, s' := tr[k].sh, tr[k + 1].sh;
            var c := tr[k].threads[mv[k].who].client;
            && (Has(s.files, p) && Has(s'.files, p) ==>
                  var o, o' := Get(s.files, p).owner, Get(s'.files, p).owner;
                  || o' == o
                  || (o == 0 && o' == c && s'.log == s.log + [Locked(p, c)])
                  || (o == c && o' == 0 && s'.log == s.log + [Unlocked(p, c)]))
            && (Has(s.files, p) && !Has(s'.files, p) ==>
                  || (s'.log == s.log + [Deleted(p, c)] && Get(s.files, p).owner == c)
                  || (exists n, w :: s'.log == s.log + [Evicted(p, c, n, w)] && Get(s.files, p).bytes != []))
            && (!Has(s.files, p) && Has(s'.files, p) ==>
                  var o := Get(s'.files, p).owner;
                  Get(s'.files, p).bytes == [] && (o == 0 || o == c) && s'.log == s.log + [Created(p, c, o)])
  {
    StepOverRuns(cfg, tr, mv, k);
    var s, s' := tr[k].sh, tr[k + 1].sh;
    var c := tr[k].threads[mv[k].who].client;
    if !(s'.log == s.log && s'.files == s.files) {
      var e: Event :| e.actor == c && Legal(cfg, s.files, e) && s'.log == s.log + [e] && s'.files == Apply(s.files, e);
      if Has(s.files, p) && Has(s'.files, p) {
        OwnerDiscipline(cfg, s.files, e, p);
      } else {
        PresenceDiscipline(cfg, s.files, e, p);
        if Has(s.files, p) && e.Evicted? {
          assert e == Evicted(p, c, e.need, e.forWrite);
        }
      }
    }
  }

  /** Contents change only for the lock holder: a step that alters a present file's bytes is made
      for the client that owns the file before and after it, and the file is open. */
  lemma ContentsOverRuns(cfg: Config, tr: seq<State>, mv: seq<Move>, k: nat, p: Path)
    requires IsRun(cfg, tr, mv) && k < |mv|
    requires Has(tr[k].sh.files, p) && Has(tr[k + 1].sh.files, p)
    requires Get(tr[k].sh.files, p).bytes != Get(tr[k + 1].sh.files, p).bytes
    ensures mv[k].who < |tr[k].threads|
    ensures Get(tr[k].sh.files, p).owner == tr[k].threads[mv[k].who].client == Get(tr[k + 1].sh.files, p).owner
    ensures Get(tr[k].sh.files, p).open
  {
    StepOverRuns(cfg, tr, mv, k);
    var s, s' := tr[k].sh, tr[k + 1].sh;
    var c := tr[k].threads[mv[k].who].client;
    var e: Event :| e.actor == c && Legal(cfg, s.files, e) && s'.log == s.log + [e] && s'.files == Apply(s.files, e);
    ContentsDiscipline(cfg, s.files, e, p);
  }

  /** A step leaves all files but one as they are, in their order. */
  lemma FrameOverRuns(cfg: Config, tr: seq<State>, mv: seq<Move>, k: nat)
    requires IsRun(cfg, tr, mv) && k < |mv|
    ensures tr[k + 1].sh.files == tr[k].sh.files
            || exists p: Path :: Without(tr[k + 1].sh.files, p) == Without(tr[k].sh.files, p)
                 && AsMap(tr[k + 1].sh.files).at - {p} == AsMap(tr[k].sh.files).at - {p}
  {
    StepOverRuns(cfg, tr, mv, k);
    var s, s' := tr[k].sh, tr[k + 1].sh;
    if s'.files != s.files {
      var e: Event :| Legal(cfg, s.files, e) && s'.files == Apply(s.files, e);
      FrameOfEvent(s.files, e);
      ListRefinesOrderedMap(cfg, s.files, e);
      MapFrame(AsMap(s.files), e);
      assert Without(s'.files, e.path) == Without(s.files, e.path);
    }
  }

  lemma MapFrame(m: OrderedMap, e: Event)
    ensures MapApply(m, e).at - {e.path} == m.at - {e.path}
  {
  }

  // ----- Requests -----

  /** A thread's own bookkeeping: the snapshot is taken once, client and request stay. */
  lemma SnapshotKept(cfg: Config, sh: Shared, t: Thread)
    requires Fetch(t.pc).FileOp?
    ensures var t' := FileStep(cfg, sh, t).1;
            && t'.client == t.client && t'.req == t.req && t'.unset == t.unset
            && t'.snap == (if t.pc == Req(Dispatch) then sh.files else t.snap)
            && t'.pc != Req(Dispatch)
  {
  }

  /** While a thread holds the queue mutex, nobody else changes the table or the thread. */
  lemma OthersLeaveSection(cfg: Config, s: State, i: nat, ch: Choice, w: nat)
    requires Exclusive(s) && NoCrash(s) && Enabled(s, i, ch) && i != w
    requires QueueM in s.holder && s.holder[QueueM] == w
    ensures Fire(cfg, s, i, ch).sh == s.sh && Fire(cfg, s, i, ch).threads[w] == s.threads[w]
  {
    TableFrame(cfg, s, i, ch);
    FileOpsHoldQueue(s.threads[i].pc);
    StepFrame(cfg, s, i, ch, w);
    if Fetch(s.threads[w].pc).Asleep? {
      SleepText(s.threads[w].pc, QueueM);
    }
  }

  /** Inside a section begun at a table `start`: the thread is about to look at it, or has noted it. */
  ghost predicate Serving(sh: Shared, t: Thread, start: Store, from: Thread) {
    && t.client == from.client && t.req == from.req && t.unset == from.unset
    && (if t.pc == Req(Dispatch) then sh.files == start else t.snap == start)
    && !t.pc.Signal?
  }

  ghost predicate InSection(s: State, w: nat, start: Store, from: Thread) {
    QueueM in s.holder && s.holder[QueueM] == w < |s.threads| && Serving(s.sh, s.threads[w], start, from)
  }

  lemma FileServing(cfg: Config, sh: Shared, t: Thread, start: Store, from: Thread)
    requires Fetch(t.pc).FileOp? && Serving(sh, t, start, from)
    ensures Serving(FileStep(cfg, sh, t).0, FileStep(cfg, sh, t).1, start, from)
  {
    SnapshotKept(cfg, sh, t);
    FileSelf(cfg, sh, t);
  }

  lemma MoveServing(sh: Shared, t: Thread, start: Store, from: Thread)
    requires Holds(t.pc, QueueM) && Moves(Fetch(t.pc)) && Serving(sh, t, start, from)
    ensures Serving(sh, t.(pc := Fetch(t.pc).next), start, from)
  {
  }

  lemma SelfServing(cfg: Config, s: State, w: nat, ch: Choice, start: Store, from: Thread)
    requires Exclusive(s) && NoCrash(s) && Enabled(s, w, ch) && InSection(s, w, start, from)
    ensures Serving(Fire(cfg, s, w, ch).sh, Fire(cfg, s, w, ch).threads[w], start, from)
  {
    var t := s.threads[w];
    assert Holds(t.pc, QueueM);
    TableFrame(cfg, s, w, ch);
    StepSelf(cfg, s, w, ch);
    if Fetch(t.pc).FileOp? {
      FileServing(cfg, s.sh, t, start, from);
    } else if t.pc != Section(Receive) {
      FileOpsHoldQueue(t.pc);
      HoldersAct(t.pc);
      MoveServing(s.sh, t, start, from);
    }
  }

  lemma SectionGoesOn(cfg: Config, s: State, i: nat, ch: Choice, w: nat, start: Store, from: Thread)
    requires Exclusive(s) && NoCrash(s) && Enabled(s, i, ch) && InSection(s, w, start, from)
    requires QueueM in Fire(cfg, s, i, ch).holder && Fire(cfg, s, i, ch).holder[QueueM] == w
    ensures InSection(Fire(cfg, s, i, ch), w, start, from)
  {
    if i != w {
      OthersLeaveSection(cfg, s, i, ch, w);
    } else {
      SelfServing(cfg, s, w, ch, start, from);
    }
  }

  /** Requests are atomic. If thread `w` takes the queue mutex for a request in step `a` and keeps
      it until it is about to answer in state `b`, then table and answer are exactly those of the
      request served alone on the table of state `a`, whatever the other threads did in between. */
  lemma {:induction false} RequestsAreAtomic(cfg: Config, tr: seq<State>, mv: seq<Move>, a: nat, b: nat, w: nat)
    requires IsRun(cfg, tr, mv) && a < b < |tr|
    requires mv[a].who == w < |tr[a].threads| && tr[a].threads[w].pc == Req(WantQ)
    requires forall k :: a < k <= b ==> QueueM in tr[k].holder && tr[k].holder[QueueM] == w
    requires w < |tr[b].threads| && tr[b].threads[w].pc == Req(Reply)
    ensures var t := tr[a].threads[w];
            Result(tr[b].sh.files, tr[b].threads[w].status) == Served(cfg, tr[a].sh.files, t.client, t.req, t.unset)
  {
    SectionOfRun(cfg, tr, mv, a, b, w);
    RunsKeepInv(cfg, tr, mv, b);
  }

  lemma SectionBegins(cfg: Config, tr: seq<State>, mv: seq<Move>, a: nat, w: nat)
    requires IsRun(cfg, tr, mv) && a < |mv|
    requires mv[a].who == w < |tr[a].threads| && tr[a].threads[w].pc == Req(WantQ)
    ensures InSection(tr[a + 1], w, tr[a].sh.files, tr[a].threads[w])
  {
    RunStep(cfg, tr, mv, a);
    TableFrame(cfg, tr[a], w, mv[a].ch);
    StepSelf(cfg, tr[a], w, mv[a].ch);
  }

  lemma SectionNext(cfg: Config, tr: seq<State>, mv: seq<Move>, k: nat, w: nat, start: Store, from: Thread)
    requires IsRun(cfg, tr, mv) && k < |mv| && InSection(tr[k], w, start, from)
    requires QueueM in tr[k + 1].holder && tr[k + 1].holder[QueueM] == w
    ensures InSection(tr[k + 1], w, start, from)
  {
    RunStep(cfg, tr, mv, k);
    SectionGoesOn(cfg, tr[k], mv[k].who, mv[k].ch, w, start, from);
  }

  lemma {:induction false} SectionOfRun(cfg: Config, tr: seq<State>, mv: seq<Move>, a: nat, b: nat, w: nat)
    requires IsRun(cfg, tr, mv) && a < b < |tr|
    requires mv[a].who == w < |tr[a].threads| && tr[a].threads[w].pc == Req(WantQ)
    requires forall k :: a < k <= b ==> QueueM in tr[k].holder && tr[k].holder[QueueM] == w
    ensures InSection(tr[b], w, tr[a].sh.files, tr[a].threads[w])
    decreases b
  {
    if b == a + 1 {
      SectionBegins(cfg, tr, mv, a, w);
    } else {
      SectionOfRun(cfg, tr, mv, a, b - 1, w);
      SectionNext(cfg, tr, mv, b - 1, w, tr[a].sh.files, tr[a].threads[w]);
    }
  }

  /** A read is answered with success exactly if an open file of that name is in the table, whoever owns
      it; the file then holds its history: its last write since creation and all later appends. */
  lemma ReadAnswersHistory(cfg: Config, tr: seq<State>, mv: seq<Move>, k: nat, w: nat)
    requires IsRun(cfg, tr, mv) && k < |tr| && w < |tr[k].threads|
    requires tr[k].threads[w].pc == Req(Reply) && tr[k].threads[w].req.Read?
    ensures tr[k].threads[w].status == OK <==> OpenInTable(tr[k].sh.files, tr[k].threads[w].req.path)
    ensures forall i :: tr[k].threads[w].status == OK && Names(tr[k].sh.files, i, tr[k].threads[w].req.path) ==>
              HasHistory(tr[k].sh.log, tr[k].threads[w].req.path, tr[k].sh.files[i].bytes)
  {
    RunsKeepInv(cfg, tr, mv, k);
    HolderAsserts(cfg, tr[k], w);
    ReadDoneIsHistory(cfg, tr[k].sh, tr[k].threads[w]);
  }

  ghost predicate OpenInTable(files: Store, p: Path) {
    exists i :: Names(files, i, p) && files[i].open
  }

  lemma ReadDoneIsHistory(cfg: Config, sh: Shared, t: Thread)
    requires Base(cfg, sh) && Assertion(cfg, sh, t) && t.pc == Req(Reply) && t.req.Read?
    ensures t.status == OK <==> OpenInTable(sh.files, t.req.path)
    ensures forall i :: t.status == OK && Names(sh.files, i, t.req.path) ==>
              HasHistory(sh.log, t.req.path, sh.files[i].bytes)
  {
    var p := t.req.path;
    RunsStayWellFormed(cfg, sh.log);
    ReadIffOpen(sh.files, p);
    forall i | t.status == OK && Names(sh.files, i, p) ensures HasHistory(sh.log, p, sh.files[i].bytes) {
      FindUnique(sh.files, i);
      ReadReturnsHistory(cfg, sh.log, p);
    }
  }

  lemma ReadIffOpen(s: Store, p: Path)
    requires Distinct(s)
    ensures ReadFile(s, p).Some? <==> OpenInTable(s, p)
  {
    var k := Find(s, p);
    if k < |s| {
      assert Names(s, k, p);
    }
    if ReadFile(s, p).None? {
      forall i ensures !(Names(s, i, p) && s[i].open) {
        ReadAnswers(s, p, i);
      }
    }
    ReadAnswers(s, p, k);
  }

  // ----- Statistics -----

  lemma PeakNext(cfg: Config, tr: seq<State>, mv: seq<Move>, k: nat, m: Mark)
    requires IsRun(cfg, tr, mv) && k < |mv|
    ensures Peak(tr[k + 1].sh.log, m) == Max(Peak(tr[k].sh.log, m), Level(tr[k + 1].sh.files, m))
  {
    StepOverRuns(cfg, tr, mv, k);
    TableOverRuns(cfg, tr, mv, k);
    PeakAfter(cfg, tr[k].sh, tr[k + 1].sh, m);
  }

  lemma {:induction false} PeakBoundsRun(cfg: Config, tr: seq<State>, mv: seq<Move>, j: nat, k: nat, m: Mark)
    requires IsRun(cfg, tr, mv) && j <= k < |tr|
    ensures Level(tr[j].sh.files, m) <= Peak(tr[k].sh.log, m)
    decreases k
  {
    if k == 0 {
      StartsAtZero(tr[0], m);
    } else {
      PeakNext(cfg, tr, mv, k - 1, m);
      if j < k {
        PeakBoundsRun(cfg, tr, mv, j, k - 1, m);
      }
    }
  }

  ghost predicate AtPeak(tr: seq<State>, j: nat, k: nat, m: Mark)
    requires j <= k < |tr|
  {
    Level(tr[j].sh.files, m) == Peak(tr[k].sh.log, m)
  }

  lemma {:induction false} PeakReachedInRun(cfg: Config, tr: seq<State>, mv: seq<Move>, k: nat, m: Mark) returns (j: nat)
    requires IsRun(cfg, tr, mv) && k < |tr|
    ensures j <= k && AtPeak(tr, j, k, m)
  {
    j := k;
    if k == 0 {
      StartsAtZero(tr[0], m);
    } else {
      PeakNext(cfg, tr, mv, k - 1, m);
      if !AtPeak(tr, k, k, m) {
        j := PeakReachedInRun(cfg, tr, mv, k - 1, m);
      }
    }
  }

  /** The peak of the log is the maximum over all states of the run. */
  lemma PeakOverRun(cfg: Config, tr: seq<State>, mv: seq<Move>, k: nat, m: Mark)
    requires IsRun(cfg, tr, mv) && k < |tr|
    ensures forall j :: 0 <= j <= k ==> Level(tr[j].sh.files, m) <= Peak(tr[k].sh.log, m)
    ensures exists j :: 0 <= j <= k && AtPeak(tr, j, k, m)
  {
    forall j: nat | j <= k ensures Level(tr[j].sh.files, m) <= Peak(tr[k].sh.log, m) {
      PeakBoundsRun(cfg, tr, mv, j, k, m);
    }
    var j := PeakReachedInRun(cfg, tr, mv, k, m);
  }

  lemma StartsAtZero(s: State, m: Mark)
    requires Init(s)
    ensures Level(s.sh.files, m) == Peak(s.sh.log, m)
  {
  }

  lemma PeakAfter(cfg: Config, sh: Shared, sh': Shared, m: Mark)
    requires sh.files == Rebuild(sh.log)
    requires (sh'.log == sh.log && sh'.files == sh.files)
             || exists e: Event :: sh'.log == sh.log + [e] && sh'.files == Apply(sh.files, e)
    ensures Peak(sh'.log, m) == Max(Peak(sh.log, m), Level(sh'.files, m))
  {
    if sh'.log == sh.log && sh'.files == sh.files {
      PeakBounds(sh.log, m, |sh.log|, |sh.log|);
    } else {
      var e: Event :| sh'.log == sh.log + [e] && sh'.files == Apply(sh.files, e);
      PeakStep(sh.log, e, m);
    }
  }

  /** High-water marks are exact: whenever the queue mutex is free, the marks are the largest file
      count and the largest total size over all states so far, and some state reached them. */
  lemma MarksAreExact(cfg: Config, tr: seq<State>, mv: seq<Move>, k: nat)
    requires IsRun(cfg, tr, mv) && k < |tr| && QueueM !in tr[k].holder
    ensures forall j :: 0 <= j <= k ==> |tr[j].sh.files| <= tr[k].sh.maxNum && Total(tr[j].sh.files) <= tr[k].sh.maxSize
    ensures exists j :: 0 <= j <= k && |tr[j].sh.files| == tr[k].sh.maxNum
    ensures exists j :: 0 <= j <= k && Total(tr[j].sh.files) == tr[k].sh.maxSize
  {
    QuietMarks(cfg, tr, mv, k);
    forall j: nat | j <= k
      ensures |tr[j].sh.files| <= tr[k].sh.maxNum && Total(tr[j].sh.files) <= tr[k].sh.maxSize
    {
      PeakBoundsRun(cfg, tr, mv, j, k, NumFile);
      PeakBoundsRun(cfg, tr, mv, j, k, Storage);
    }
    var a := PeakReachedInRun(cfg, tr, mv, k, NumFile);
    var b := PeakReachedInRun(cfg, tr, mv, k, Storage);
    assert |tr[a].sh.files| == tr[k].sh.maxNum;
    assert Total(tr[b].sh.files) == tr[k].sh.maxSize;
  }

  lemma QuietMarks(cfg: Config, tr: seq<State>, mv: seq<Move>, k: nat)
    requires IsRun(cfg, tr, mv) && k < |tr| && QueueM !in tr[k].holder
    ensures tr[k].sh.maxNum == Peak(tr[k].sh.log, NumFile) && tr[k].sh.maxSize == Peak(tr[k].sh.log, Storage)
  {
    RunsKeepInv(cfg, tr, mv, k);
  }

  /** Creations are the present files, the deletions and the evictions; the replacement counter
      counts the evictions made by writes and, between requests, all of them. */
  lemma CountsAreExact(cfg: Config, tr: seq<State>, mv: seq<Move>, k: nat)
    requires IsRun(cfg, tr, mv) && k < |tr|
    ensures var log := tr[k].sh.log;
            Count(log, Creation) == |tr[k].sh.files| + Count(log, Deletion) + Count(log, Eviction)
    ensures QueueM !in tr[k].holder ==> tr[k].sh.replaced == Count(tr[k].sh.log, Replacement)
  {
    RunsKeepInv(cfg, tr, mv, k);
    FilesAreConserved(cfg, tr[k].sh.log);
  }

  // ----- Mutexes and the pool -----

  /** In every reachable state with a thread that is not parked, some such thread can take a step, or
      the holder of the queue mutex waits for bytes its own client owes, and can step as soon as one
      comes; a parked thread holds no mutex, and a receiving one the queue mutex only. */
  lemma NoDeadlockOverRuns(cfg: Config, tr: seq<State>, mv: seq<Move>, k: nat)
    requires IsRun(cfg, tr, mv) && k < |tr|
    ensures (exists i :: 0 <= i < |tr[k].threads| && !Parked(tr[k].threads[i].pc)) ==>
              (exists j :: CanMove(tr[k], j)) || ClientOwesBytes(tr[k])
    ensures ClientOwesBytes(tr[k]) ==> exists ch :: Enabled(tr[k], tr[k].holder[QueueM], ch)
    ensures forall m, i :: m in tr[k].holder && 0 <= i < |tr[k].threads| && tr[k].holder[m] == i ==>
              !Parked(tr[k].threads[i].pc) && (tr[k].threads[i].pc == Section(Receive) ==> m == QueueM)
  {
    RunsKeepInv(cfg, tr, mv, k);
    if exists i :: 0 <= i < |tr[k].threads| && !Parked(tr[k].threads[i].pc) {
      NoDeadlock(tr[k]);
    }
    if ClientOwesBytes(tr[k]) {
      ReceiverCanGoOn(cfg, tr[k]);
    }
    forall m, i: nat | m in tr[k].holder && i < |tr[k].threads| && tr[k].holder[m] == i
      ensures !Parked(tr[k].threads[i].pc) && (tr[k].threads[i].pc == Section(Receive) ==> m == QueueM)
    {
      HolderText(tr[k].threads[i].pc, m);
    }
  }

  lemma ReceiverCanGoOn(cfg: Config, s: State)
    requires Inv(cfg, s) && ClientOwesBytes(s)
    ensures exists ch :: Enabled(s, s.holder[QueueM], ch)
  {
    var t := s.threads[s.holder[QueueM]];
    assert SectionAssertion(cfg, s.sh, t, Receive);
    assert Enabled(s, s.holder[QueueM], Choice(t.client, t.req, 0, false, 0, false, 0, t.left));
  }

  /** What is popped is there, and two threads in service serve different accepted connections. */
  ghost predicate PoolInOrder(s: State) {
    && s.pool.served <= |s.pool.accepted| && s.pool.conns == s.pool.accepted[s.pool.served..]
    && (forall t :: t in s.threads ==>
          && (t.pc == Conn(PopConn) ==> s.pool.conns != [])
          && (InService(t.pc) ==> t.slot < s.pool.served && t.fd == s.pool.accepted[t.slot]))
    && (forall i, j :: 0 <= i < j < |s.threads| && InService(s.threads[i].pc) && InService(s.threads[j].pc)
          ==> s.threads[i].slot != s.threads[j].slot)
  }

  lemma InvMeansOrder(cfg: Config, s: State)
    requires Inv(cfg, s)
    ensures PoolInOrder(s)
  {
    forall t | t in s.threads
      ensures t.pc == Conn(PopConn) ==> s.pool.conns != []
      ensures InService(t.pc) ==> t.slot < s.pool.served && t.fd == s.pool.accepted[t.slot]
    {
      var i :| 0 <= i < |s.threads| && s.threads[i] == t;
      assert Serves(s.pool, t);
      assert Holds(t.pc, ConnM) ==> s.holder[ConnM] == i;
    }
  }

  /** The pool: no thread pops an empty queue, descriptors wait in the order of acceptance, and two
      threads in service serve different accepted connections. */
  lemma PoolOverRuns(cfg: Config, tr: seq<State>, mv: seq<Move>, k: nat)
    requires IsRun(cfg, tr, mv) && k < |tr|
    ensures PoolInOrder(tr[k])
  {
    RunsKeepInv(cfg, tr, mv, k);
    InvMeansOrder(cfg, tr[k]);
  }

  /** Step `k` pops the connection queue for its thread. */
  ghost predicate Pops(tr: seq<State>, mv: seq<Move>, k: nat) {
    k < |mv| && k < |tr| && mv[k].who < |tr[k].threads| && tr[k].threads[mv[k].who].pc == Conn(PopConn)
  }

  lemma PoolGrowsAt(cfg: Config, tr: seq<State>, mv: seq<Move>, k: nat)
    requires IsRun(cfg, tr, mv) && k < |mv|
    ensures tr[k].pool.served <= tr[k + 1].pool.served && tr[k].pool.accepted <= tr[k + 1].pool.accepted
  {
    RunStep(cfg, tr, mv, k);
    SelfMoves(cfg, tr[k], mv[k].who, mv[k].ch);
  }

  lemma {:induction false} PoolGrows(cfg: Config, tr: seq<State>, mv: seq<Move>, a: nat, b: nat)
    requires IsRun(cfg, tr, mv) && a <= b < |tr|
    ensures tr[a].pool.served <= tr[b].pool.served && tr[a].pool.accepted <= tr[b].pool.accepted
    decreases b
  {
    if a < b {
      PoolGrows(cfg, tr, mv, a, b - 1);
      PoolGrowsAt(cfg, tr, mv, b - 1);
    }
  }

  lemma PopTakesNext(cfg: Config, tr: seq<State>, mv: seq<Move>, k: nat)
    requires IsRun(cfg, tr, mv) && Pops(tr, mv, k)
    ensures var w := mv[k].who;
            && w < |tr[k + 1].threads|
            && tr[k + 1].threads[w].slot == tr[k].pool.served < tr[k + 1].pool.served <= |tr[k + 1].pool.accepted|
            && tr[k + 1].threads[w].fd == tr[k + 1].pool.accepted[tr[k].pool.served]
  {
    RunStep(cfg, tr, mv, k);
    PopperSees(cfg, tr[k], mv[k].who);
    PoppedByStep(cfg, tr[k], mv[k].who, mv[k].ch);
  }

  lemma PopperSees(cfg: Config, s: State, w: nat)
    requires Inv(cfg, s) && w < |s.threads| && s.threads[w].pc == Conn(PopConn)
    ensures s.pool.conns != [] && QueueInOrder(s.pool)
  {
    assert Holds(s.threads[w].pc, ConnM);
  }

  lemma PoppedByStep(cfg: Config, s: State, w: nat, ch: Choice)
    requires Enabled(s, w, ch) && s.threads[w].pc == Conn(PopConn) && s.pool.conns != [] && QueueInOrder(s.pool)
    ensures var s' := Fire(cfg, s, w, ch);
            && s'.threads[w].slot == s.pool.served < s'.pool.served <= |s'.pool.accepted|
            && s'.threads[w].fd == s'.pool.accepted[s.pool.served]
  {
    PopSelf(s.pool, s.threads[w], ch);
  }

  /** Accepted connections are served in the order of acceptance, each at most once: of two pops
      anywhere in a run the later one gets a later entry of the accepted descriptors. */
  lemma ServiceIsFifo(cfg: Config, tr: seq<State>, mv: seq<Move>, a: nat, b: nat)
    requires IsRun(cfg, tr, mv) && a < b && Pops(tr, mv, a) && Pops(tr, mv, b)
    ensures mv[a].who < |tr[a + 1].threads| && mv[b].who < |tr[b + 1].threads|
    ensures var first, second := tr[a + 1].threads[mv[a].who], tr[b + 1].threads[mv[b].who];
            && first.slot < second.slot < |tr[b + 1].pool.accepted|
            && first.fd == tr[b + 1].pool.accepted[first.slot]
            && second.fd == tr[b + 1].pool.accepted[second.slot]
  {
    PopTakesNext(cfg, tr, mv, a);
    PopTakesNext(cfg, tr, mv, b);
    PoolGrows(cfg, tr, mv, a + 1, b);
    PoolGrows(cfg, tr, mv, a + 1, b + 1);
  }

  /** Once the signal thread has set its flag and broadcast, no worker sleeps on the connection
      condition or is about to, and a worker that tests the flags leaves the pool. */
  lemma ShutdownReachesThePool(cfg: Config, tr: seq<State>, mv: seq<Move>, k: nat, i: nat, w: nat)
    requires IsRun(cfg, tr, mv) && k < |tr| && i < |tr[k].threads| && w < |tr[k].threads|
    requires HasBroadcast(tr[k].threads[i].pc)
    ensures Flagged(tr[k].pool) && !WaitsForConn(tr[k].threads[w].pc)
    ensures forall ch :: tr[k].threads[w].pc == Conn(TestConn) ==>
              PoolStep(tr[k].pool, tr[k].threads[w], ch).1.pc == Conn(FlagTest)
    ensures forall ch :: tr[k].threads[w].pc == Conn(FlagTest) ==>
              PoolStep(tr[k].pool, tr[k].threads[w], ch).1.pc == Conn(ExitRel)
  {
    RunsKeepInv(cfg, tr, mv, k);
    assert tr[k].threads[i].pc != Signal(Sigwait);
  }
}
