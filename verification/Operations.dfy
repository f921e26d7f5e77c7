/** What each request means: the list operations of `Files` seen as legal events, and when each
    of them answers success. */
module Operations {
  import opened Files
  import opened EventLog
  import opened LogTheorems
  import opened MachineInts

  /** The event of a request that touches the table at most once. */
  function EventOf(cfg: Config, s: Store, c: ClientId, req: Request): (e: Option<Event>)
    ensures e.Some? && e.value.Created? ==> req.Open? && Outcome(cfg, s, c, req).status == OK
    ensures e.Some? && e.value.Unlocked? ==> req.Unlock? && Outcome(cfg, s, c, req).status == OK
  {
    match req
    case Open(p, create, lock) =>
      if OpenFile(cfg, s, p, create, lock, c).status != OK then None
      else if !Has(s, p) then Some(Created(p, c, if lock then c else 0))
      else if lock && Get(s, p).owner == 0 then Some(Locked(p, c))
      else None
    case Lock(p) =>
      if LockFile(s, p, c).status == OK && Get(s, p).owner == 0 then Some(Locked(p, c)) else None
    case Unlock(p) =>
      if UnlockFile(s, p, c).status == OK && Get(s, p).owner == c then Some(Unlocked(p, c)) else None
    case Close(p) =>
      if CloseFile(s, p, c).status == OK && Get(s, p).open then Some(Closed(p, c)) else None
    case Delete(p) =>
      if DeleteFile(s, p, c).status == OK then Some(Deleted(p, c)) else None
    case _ => None
  }

  /** The event that stores the data of a write or an append. */
  function PutEvent(c: ClientId, req: Request): Event
    requires req.Write? || req.Append?
  {
    if req.Write? then Wrote(req.path, c, req.data) else Appended(req.path, c, req.data)
  }

  function Put(s: Store, req: Request): Result
    requires req.Write? || req.Append?
  {
    if req.Write? then WriteFile(s, req.path, req.data) else AppendFile(s, req.path, req.data)
  }

  function Logged(e: Option<Event>): Log {
    if e.Some? then [e.value] else []
  }

  function ApplyAll(s: Store, log: Log): Store {
    ApplyTo(s, log, |log|)
  }

  function ApplyTo(s: Store, log: Log, n: nat): Store
    requires n <= |log|
  {
    if n == 0 then s else Apply(ApplyTo(s, log, n - 1), log[n - 1])
  }

  /** Every event of the log is legal where it happens, from `s` on. */
  ghost predicate LegalFrom(cfg: Config, s: Store, log: Log) {
    LegalFromTo(cfg, s, log, |log|)
  }

  ghost predicate LegalFromTo(cfg: Config, s: Store, log: Log, n: nat)
    requires n <= |log|
  {
    n > 0 ==> LegalFromTo(cfg, s, log, n - 1) && Legal(cfg, ApplyTo(s, log, n - 1), log[n - 1])
  }

  function Room(cfg: Config, s: Store, req: Request): Option<Store>
    requires IsSection(req)
  {
    if req.Write? && |req.data| > cfg.maxMem then None else MakeRoom(cfg, s, |req.data|)
  }

  /** The eviction a write or append starts with, if any. */
  function RoomEvents(cfg: Config, s: Store, c: ClientId, req: Request): Log
    requires IsSection(req)
  {
    var k := FirstFit(s, Free(cfg, s), |req.data|);
    if |req.data| <= Free(cfg, s) || Room(cfg, s, req) == None || k == |s| then []
    else [Evicted(s[k].path, c, |req.data|, req.Write?)]
  }

  function PutEvents(s: Store, c: ClientId, req: Request): Log
    requires IsSection(req)
  {
    if HasLock(s, req.path, c) && Get(s, req.path).open then [PutEvent(c, req)] else []
  }

  /** All events of a request run alone. */
  function EventsOf(cfg: Config, s: Store, c: ClientId, req: Request): Log {
    if !IsSection(req) then Logged(EventOf(cfg, s, c, req))
    else match Room(cfg, s, req)
      case None => []
      case Some(s1) => RoomEvents(cfg, s, c, req) + PutEvents(s1, c, req)
  }

  lemma SingleEvent(cfg: Config, s: Store, c: ClientId, req: Request)
    requires WellFormed(cfg, s) && !req.Write? && !req.Append?
    ensures match EventOf(cfg, s, c, req)
            case None => Outcome(cfg, s, c, req).files == s
            case Some(e) => e.actor == c && Legal(cfg, s, e) && Outcome(cfg, s, c, req).files == Apply(s, e)
  {
    match EventOf(cfg, s, c, req)
    case None =>
    case Some(e) =>
      if e.Deleted? {
        WithoutIsRemoveAt(s, Find(s, e.path));
      } else if !e.Created? {
        UpdateInPlace(s, e);
      }
  }

  lemma EvictionEvent(cfg: Config, s: Store, c: ClientId, need: nat, forWrite: bool)
    requires WellFormed(cfg, s) && need > Free(cfg, s) && FirstFit(s, Free(cfg, s), need) < |s|
    ensures var k := FirstFit(s, Free(cfg, s), need);
            var e := Evicted(s[k].path, c, need, forWrite);
            Legal(cfg, s, e) && Apply(s, e) == RemoveAt(s, k) && need <= Free(cfg, RemoveAt(s, k))
            && WellFormed(cfg, RemoveAt(s, k))
  {
    var k := FirstFit(s, Free(cfg, s), need);
    FindUnique(s, k);
    WithoutIsRemoveAt(s, k);
    TotalRemove(s, k);
    LegalKeepsWellFormed(cfg, s, Evicted(s[k].path, c, need, forWrite));
  }

  lemma PutIsEvent(cfg: Config, s: Store, c: ClientId, req: Request)
    requires WellFormed(cfg, s) && (req.Write? || req.Append?)
    requires HasLock(s, req.path, c) && Get(s, req.path).open && |req.data| <= Free(cfg, s)
    ensures Legal(cfg, s, PutEvent(c, req)) && Put(s, req) == Result(Apply(s, PutEvent(c, req)), OK)
  {
    UpdateInPlace(s, PutEvent(c, req));
  }

  /** What follows once room has been made, or could not be. */
  lemma SectionAfterRoom(cfg: Config, s: Store, c: ClientId, req: Request)
    requires IsSection(req)
    ensures Outcome(cfg, s, c, req)
            == match Room(cfg, s, req)
               case None => Result(s, FAIL)
               case Some(s1) => if HasLock(s1, req.path, c) then Put(s1, req) else Result(s1, FAIL)
  {
  }

  lemma RoomByEviction(cfg: Config, s: Store, c: ClientId, req: Request)
    requires WellFormed(cfg, s) && IsSection(req) && Room(cfg, s, req).Some? && |req.data| > Free(cfg, s)
    ensures var e := RoomEvents(cfg, s, c, req);
            && |e| == 1 && Legal(cfg, s, e[0]) && Apply(s, e[0]) == Room(cfg, s, req).value
    ensures var s1 := Room(cfg, s, req).value; WellFormed(cfg, s1) && |req.data| <= Free(cfg, s1)
  {
    EvictionEvent(cfg, s, c, |req.data|, req.Write?);
  }

  lemma ApplyOne(cfg: Config, s: Store, log: Log)
    requires |log| == 1
    ensures ApplyAll(s, log) == Apply(s, log[0]) && (LegalFrom(cfg, s, log) <==> Legal(cfg, s, log[0]))
  {
    assert ApplyTo(s, log, 0) == s && LegalFromTo(cfg, s, log, 0);
  }

  lemma ApplyTwo(cfg: Config, s: Store, log: Log)
    requires |log| == 2 && Legal(cfg, s, log[0]) && Legal(cfg, Apply(s, log[0]), log[1])
    ensures ApplyAll(s, log) == Apply(Apply(s, log[0]), log[1]) && LegalFrom(cfg, s, log)
  {
    assert ApplyTo(s, log, 0) == s && LegalFromTo(cfg, s, log, 0);
    assert ApplyTo(s, log, 1) == Apply(s, log[0]) && LegalFromTo(cfg, s, log, 1);
  }

  /** Making room is no event or one legal eviction, and the request then fits. */
  lemma RoomIsEvents(cfg: Config, s: Store, c: ClientId, req: Request)
    requires WellFormed(cfg, s) && IsSection(req) && Room(cfg, s, req).Some?
    ensures var s1 := Room(cfg, s, req).value; WellFormed(cfg, s1) && |req.data| <= Free(cfg, s1)
    ensures |RoomEvents(cfg, s, c, req)| <= 1
    ensures LegalFrom(cfg, s, RoomEvents(cfg, s, c, req))
    ensures ApplyAll(s, RoomEvents(cfg, s, c, req)) == Room(cfg, s, req).value
  {
    if |req.data| > Free(cfg, s) {
      RoomByEviction(cfg, s, c, req);
      ApplyOne(cfg, s, RoomEvents(cfg, s, c, req));
    }
  }

  /** Every request acts on the table as its events do, each of them legal where it happens. */
  lemma RequestsAreLegalEvents(cfg: Config, s: Store, c: ClientId, req: Request)
    requires WellFormed(cfg, s)
    ensures LegalFrom(cfg, s, EventsOf(cfg, s, c, req))
    ensures ApplyAll(s, EventsOf(cfg, s, c, req)) == Outcome(cfg, s, c, req).files
  {
    if IsSection(req) {
      SectionAfterRoom(cfg, s, c, req);
      if Room(cfg, s, req).Some? {
        SectionEvents(cfg, s, c, req);
      }
    } else {
      SingleEvent(cfg, s, c, req);
      if EventOf(cfg, s, c, req).Some? {
        ApplyOne(cfg, s, EventsOf(cfg, s, c, req));
      }
    }
    assert EventsOf(cfg, s, c, req) == [] ==> ApplyTo(s, [], 0) == s && LegalFromTo(cfg, s, [], 0);
  }

  /** The events of a request are at most one eviction, made by a write or append only, followed by
      at most one event of the request's own path, all made for the requesting client. */
  lemma RequestsTouchOnePath(cfg: Config, s: Store, c: ClientId, req: Request)
    ensures var log := EventsOf(cfg, s, c, req);
            && |log| <= 2
            && (forall i :: 0 <= i < |log| ==>
                  && log[i].actor == c
                  && (if log[i].Evicted? then i == 0 && IsSection(req)
                      else i == |log| - 1 && !req.ReadN? && log[i].path == req.path))
  {
    if IsSection(req) && Room(cfg, s, req).Some? {
      var room, put := RoomEvents(cfg, s, c, req), PutEvents(Room(cfg, s, req).value, c, req);
      assert EventsOf(cfg, s, c, req) == room + put;
    }
  }

  lemma PutsAreEvents(cfg: Config, s: Store, c: ClientId, req: Request)
    requires WellFormed(cfg, s) && IsSection(req) && |req.data| <= Free(cfg, s)
    ensures |PutEvents(s, c, req)| <= 1
    ensures if PutEvents(s, c, req) == [] then !HasLock(s, req.path, c) || Put(s, req).files == s
            else Legal(cfg, s, PutEvents(s, c, req)[0]) && HasLock(s, req.path, c)
                 && Put(s, req).files == Apply(s, PutEvents(s, c, req)[0])
  {
    if PutEvents(s, c, req) != [] {
      PutIsEvent(cfg, s, c, req);
    }
  }

  lemma SectionEvents(cfg: Config, s: Store, c: ClientId, req: Request)
    requires WellFormed(cfg, s) && IsSection(req) && Room(cfg, s, req).Some?
    ensures LegalFrom(cfg, s, EventsOf(cfg, s, c, req))
    ensures ApplyAll(s, EventsOf(cfg, s, c, req)) == Outcome(cfg, s, c, req).files
  {
    var s1, log := Room(cfg, s, req).value, EventsOf(cfg, s, c, req);
    SectionAfterRoom(cfg, s, c, req);
    RoomIsEvents(cfg, s, c, req);
    PutsAreEvents(cfg, s1, c, req);
    var room, put := RoomEvents(cfg, s, c, req), PutEvents(s1, c, req);
    assert log == room + put;
    if |room| == 1 {
      RoomByEviction(cfg, s, c, req);
    }
    if |log| == 1 {
      ApplyOne(cfg, s, log);
    } else if |log| == 2 {
      ApplyTwo(cfg, s, log);
    }
  }

  lemma {:induction false} LegalFromKeepsWellFormed(cfg: Config, s: Store, log: Log, n: nat)
    requires WellFormed(cfg, s) && n <= |log| && LegalFromTo(cfg, s, log, n)
    ensures WellFormed(cfg, ApplyTo(s, log, n))
  {
    if n > 0 {
      LegalFromKeepsWellFormed(cfg, s, log, n - 1);
      LegalKeepsWellFormed(cfg, ApplyTo(s, log, n - 1), log[n - 1]);
    }
  }

  /** Every request keeps the table within its limits. */
  lemma RequestsKeepWellFormed(cfg: Config, s: Store, c: ClientId, req: Request)
    requires WellFormed(cfg, s)
    ensures WellFormed(cfg, Outcome(cfg, s, c, req).files)
    ensures cfg.maxMem <= INT_MAX && SoundRequest(cfg, req) ==> WellFormed(cfg, Carried(cfg, s, c, req).files)
  {
    RequestsAreLegalEvents(cfg, s, c, req);
    LegalFromKeepsWellFormed(cfg, s, EventsOf(cfg, s, c, req), |EventsOf(cfg, s, c, req)|);
    if cfg.maxMem <= INT_MAX && SoundRequest(cfg, req) {
      CarriedAsSpecified(cfg, s, c, req);
    }
  }

  // ----- What the code does for a request of any size -----

  /** The code checks the size of writes only, so an append may be of a size for which its arithmetic
      does not choose the victim that is specified. */
  predicate SoundRequest(cfg: Config, req: Request) {
    req.Append? ==> SoundSize(cfg, |req.data|)
  }

  /** The room a write or append finds or makes, for an append as the machine makes it. */
  function RoomMade(cfg: Config, s: Store, req: Request): Option<Store>
    requires IsSection(req)
  {
    if req.Append? then MachineRoom(cfg, s, |req.data|) else Room(cfg, s, req)
  }

  /** What the code does for a request that runs alone. */
  function Carried(cfg: Config, s: Store, c: ClientId, req: Request): (r: Result)
    ensures !req.Append? ==> r == Outcome(cfg, s, c, req)
  {
    if req.Append? then MachineAppend(cfg, s, c, req.path, req.data) else Outcome(cfg, s, c, req)
  }

  lemma CarriedAsSpecified(cfg: Config, s: Store, c: ClientId, req: Request)
    requires WellFormed(cfg, s) && cfg.maxMem <= INT_MAX && SoundRequest(cfg, req)
    ensures Carried(cfg, s, c, req) == Outcome(cfg, s, c, req)
  {
    if req.Append? {
      AppendIsExact(cfg, s, c, req.path, req.data);
    }
  }

  // ----- How requests relate to each other -----

  /** Locking a free open file shuts out everybody else until its owner unlocks it, which restores
      the table. */
  lemma LockExcludesUntilUnlock(s: Store, p: Path, c: ClientId, d: ClientId)
    requires Distinct(s) && Has(s, p) && Get(s, p).open && Get(s, p).owner == 0 && c != d
    ensures var t := LockFile(s, p, c);
            && t.status == OK
            && LockFile(t.files, p, d) == Result(t.files, WAIT)
            && UnlockFile(t.files, p, d) == Result(t.files, FAIL)
            && DeleteFile(t.files, p, d) == Result(t.files, FAIL)
            && CloseFile(t.files, p, d) == Result(t.files, FAIL)
            && !HasLock(t.files, p, d)
            && UnlockFile(t.files, p, c) == Result(s, OK)
  {
    var t := LockFile(s, p, c).files;
    SameOrderSameFind(s, t, p);
  }

  /** A lock holder's write of a size the memory can hold fails exactly when no single file frees
      enough room, or the first that does is the file itself, which is then lost. */
  lemma HolderWriteFailsIff(cfg: Config, s: Store, c: ClientId, p: Path, data: seq<Byte>)
    requires WellFormed(cfg, s) && |data| <= cfg.maxMem && HasLock(s, p, c) && Get(s, p).open
    ensures var r := WriteSection(cfg, s, c, p, data);
            var k := FirstFit(s, Free(cfg, s), |data|);
            && (r.status == FAIL <==> |data| > Free(cfg, s) && (k == |s| || k == Find(s, p)))
            && (|data| > Free(cfg, s) && k == Find(s, p) ==> !Has(r.files, p))
  {
    var k := FirstFit(s, Free(cfg, s), |data|);
    if |data| > Free(cfg, s) && k < |s| {
      RemovalLook(s, k, p);
      NamedOnce(s, k);
    }
  }

  /** A write of seven bytes to one's own file of six, in a memory of ten, loses the file. */
  lemma OwnFileEvicted(data: seq<Byte>)
    requires |data| == 7
    ensures var s := [File("/a", [1, 2, 3, 4, 5, 6], 1, true)];
            WriteSection(Config(10, 5), s, 1, "/a", data) == Result([], FAIL)
  {
    var s := [File("/a", [1, 2, 3, 4, 5, 6], 1, true)];
    assert Total(s) == TotalTo(s, 0) + 6;
    assert FirstFit(s, 4, 7) == 0;
    assert RemoveAt(s, 0) == [];
  }

  // ----- Appends larger than the memory -----

  /** Two empty files; the machine evicts the first for a narrowed size that fits, and the append to
      the second then exceeds the memory. */
  lemma AppendBreaksLimit(cfg: Config, data: seq<Byte>)
    requires cfg.maxMem <= INT_MAX && cfg.maxFile >= 2 && !SoundSize(cfg, |data|)
    ensures var s := [File("/a", [], 0, true), File("/b", [], 1, true)];
            WellFormed(cfg, s) && Total(MachineAppend(cfg, s, 1, "/b", data).files) > cfg.maxMem
  {
    var s := [File("/a", [], 0, true), File("/b", [], 1, true)];
    assert Total(s) == TotalTo(s, 1) == TotalTo(s, 0) == 0;
    FreeIsExact(cfg, s, |data|);
    FitsIsExact(cfg, s, 0, |data|);
    assert MachineVictim(s, MachineFree(cfg, s), |data|) == 0;
    assert RemoveAt(s, 0) == [s[1]];
    AppendToOnly(s[1], data);
  }

  lemma AppendToOnly(f: File, data: seq<Byte>)
    requires f.bytes == [] && f.open
    ensures Has([f], f.path) && Get([f], f.path) == f
    ensures Total(AppendFile([f], f.path, data).files) == |data|
  {
    var s := [f];
    FindUnique(s, 0);
    var g := f.(bytes := f.bytes + data);
    TotalUpdate(s, 0, g);
    assert Total(s) == TotalTo(s, 0) == 0;
  }

  lemma OneFileKeepsLimit(cfg: Config, s: Store, c: ClientId, p: Path, data: seq<Byte>)
    requires WellFormed(cfg, s) && cfg.maxMem <= INT_MAX && |s| < 2 && |data| > cfg.maxMem
    ensures Total(MachineAppend(cfg, s, c, p, data).files) <= cfg.maxMem
  {
    FreeIsExact(cfg, s, |data|);
    if MachineVictim(s, MachineFree(cfg, s), |data|) < |s| {
      assert RemoveAt(s, 0) == [];
    }
  }

  /** Exactly which append sizes keep the memory limit, whatever the table: the sound ones, or all if
      there can be one file only. */
  lemma AppendKeepsLimitIff(cfg: Config, need: nat)
    requires cfg.maxMem <= INT_MAX
    ensures (forall s: Store, c: ClientId, p: Path, data: seq<Byte> :: WellFormed(cfg, s) && |data| == need
               ==> Total(MachineAppend(cfg, s, c, p, data).files) <= cfg.maxMem)
            <==> SoundSize(cfg, need) || cfg.maxFile < 2
  {
    if SoundSize(cfg, need) || cfg.maxFile < 2 {
      forall s: Store, c: ClientId, p: Path, data: seq<Byte> | WellFormed(cfg, s) && |data| == need
        ensures Total(MachineAppend(cfg, s, c, p, data).files) <= cfg.maxMem
      {
        if SoundSize(cfg, need) {
          AppendIsExact(cfg, s, c, p, data);
          RequestsKeepWellFormed(cfg, s, c, Append(p, data));
        } else {
          OneFileKeepsLimit(cfg, s, c, p, data);
        }
      }
    } else {
      AppendBreaksLimit(cfg, seq(need, _ => 0));
    }
  }
}
