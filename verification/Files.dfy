/** The table of stored files, as the server's list of file nodes reads from head to tail.

    Every function here computes what one function of the storage code computes on that list:
    lookups are first-match scans from the head, new files go at the end. The heap classes of
    `FileServer` are proved against these functions, and the threads of `Server` use them as
    the effect of their critical sections. */
module Files {

  newtype Byte = b: int | 0 <= b < 256

  /** Pathnames are nonempty strings. */
  type Path = p: string | |p| > 0 witness "/"

  /** Client identifiers are process ids, hence nonzero; owner 0 means "not locked". */
  type ClientId = c: int | c != 0 witness 1

  datatype Option<+T> = None | Some(value: T)

  datatype File = File(path: Path, bytes: seq<Byte>, owner: int, open: bool)

  type Store = seq<File>

  datatype Config = Config(maxMem: nat, maxFile: nat)

  datatype Result = Result(files: Store, status: int)

  const OK := 0
  const FAIL := -1
  const WAIT := -2

  /** Not a status of the code: the request ends without an answer. */
  const UNANSWERED := -3

  // ----- Lookup, sizes, eviction -----

  /** Index of the first file named `p`, or `|s|`. */
  function Find(s: Store, p: Path): (k: nat)
    ensures k <= |s|
    ensures k < |s| ==> s[k].path == p
    ensures forall i :: 0 <= i < k ==> s[i].path != p
  {
    FindFrom(s, p, 0)
  }

  function FindFrom(s: Store, p: Path, from: nat): (k: nat)
    requires from <= |s|
    ensures from <= k <= |s|
    ensures k < |s| ==> s[k].path == p
    ensures forall i :: from <= i < k ==> s[i].path != p
    decreases |s| - from
  {
    if from == |s| || s[from].path == p then from else FindFrom(s, p, from + 1)
  }

  predicate Has(s: Store, p: Path) {
    Find(s, p) < |s|
  }

  function Get(s: Store, p: Path): (f: File)
    requires Has(s, p)
    ensures f in s && f.path == p
  {
    s[Find(s, p)]
  }

  function Total(s: Store): nat {
    TotalTo(s, |s|)
  }

  /** The sizes of the first `n` files. */
  function TotalTo(s: Store, n: nat): nat
    requires n <= |s|
  {
    if n == 0 then 0 else TotalTo(s, n - 1) + |s[n - 1].bytes|
  }

  function Free(cfg: Config, s: Store): int {
    cfg.maxMem - Total(s)
  }

  /** Index of the oldest file whose removal alone leaves `need` bytes free, or `|s|`. */
  function FirstFit(s: Store, free: int, need: int): (k: nat)
    ensures k <= |s|
    ensures k < |s| ==> free + |s[k].bytes| >= need
    ensures forall i :: 0 <= i < k ==> free + |s[i].bytes| < need
  {
    FitFrom(s, free, need, 0)
  }

  function FitFrom(s: Store, free: int, need: int, from: nat): (k: nat)
    requires from <= |s|
    ensures from <= k <= |s|
    ensures k < |s| ==> free + |s[k].bytes| >= need
    ensures forall i :: from <= i < k ==> free + |s[i].bytes| < need
    decreases |s| - from
  {
    if from == |s| || free + |s[from].bytes| >= need then from else FitFrom(s, free, need, from + 1)
  }

  function RemoveAt(s: Store, k: nat): Store
    requires k < |s|
  {
    s[..k] + s[k + 1..]
  }

  ghost predicate Apart(s: Store, i: nat, j: nat)
    requires i < |s| && j < |s|
  {
    s[i].path != s[j].path
  }

  ghost predicate Distinct(s: Store) {
    forall i, j :: 0 <= i < j < |s| ==> Apart(s, i, j)
  }

  /** What every reachable table satisfies. */
  ghost predicate WellFormed(cfg: Config, s: Store) {
    Distinct(s) && Total(s) <= cfg.maxMem && |s| <= cfg.maxFile
  }

  // ----- Operations -----

  function LockFile(s: Store, p: Path, c: ClientId): Result {
    if !Has(s, p) || !Get(s, p).open then Result(s, FAIL)
    else if Get(s, p).owner == c then Result(s, OK)
    else if Get(s, p).owner == 0 then Result(s[Find(s, p) := Get(s, p).(owner := c)], OK)
    else Result(s, WAIT)
  }

  /** Opening with neither flag a path that is not there creates it unlocked. */
  function OpenFile(cfg: Config, s: Store, p: Path, create: bool, lock: bool, c: ClientId): Result {
    if Has(s, p) && create then Result(s, FAIL)
    else if !Has(s, p) && lock && !create then Result(s, FAIL)
    else if Has(s, p) then if lock then LockFile(s, p, c) else Result(s, OK)
    else if |s| == cfg.maxFile then Result(s, FAIL)
    else Result(s + [File(p, [], if lock then c else 0, true)], OK)
  }

  function UnlockFile(s: Store, p: Path, c: ClientId): Result {
    if !Has(s, p) || !Get(s, p).open then Result(s, FAIL)
    else if Get(s, p).owner == c then Result(s[Find(s, p) := Get(s, p).(owner := 0)], OK)
    else if Get(s, p).owner == 0 then Result(s, OK)
    else Result(s, FAIL)
  }

  function WriteFile(s: Store, p: Path, data: seq<Byte>): Result {
    if !Has(s, p) || !Get(s, p).open then Result(s, FAIL)
    else Result(s[Find(s, p) := Get(s, p).(bytes := data)], OK)
  }

  function AppendFile(s: Store, p: Path, data: seq<Byte>): Result {
    if !Has(s, p) || !Get(s, p).open then Result(s, FAIL)
    else Result(s[Find(s, p) := Get(s, p).(bytes := Get(s, p).bytes + data)], OK)
  }

  function DeleteFile(s: Store, p: Path, c: ClientId): Result {
    if !Has(s, p) || !Get(s, p).open then Result(s, FAIL)
    else if Get(s, p).owner == c then Result(RemoveAt(s, Find(s, p)), OK)
    else Result(s, FAIL)
  }

  /** Closing keeps the owner; a closed file is never opened again. */
  function CloseFile(s: Store, p: Path, c: ClientId): Result {
    if !Has(s, p) then Result(s, FAIL)
    else if !Get(s, p).open then Result(s, OK)
    else if Get(s, p).owner == c then Result(s[Find(s, p) := Get(s, p).(open := false)], OK)
    else Result(s, FAIL)
  }

  predicate HasLock(s: Store, p: Path, c: ClientId) {
    Has(s, p) && Get(s, p).owner == c
  }

  function ReadFile(s: Store, p: Path): Option<seq<Byte>> {
    if Has(s, p) && Get(s, p).open then Some(Get(s, p).bytes) else None
  }

  /** The table after making room for `need` bytes: at most one file goes, and `None` when no
      single file would do. */
  function MakeRoom(cfg: Config, s: Store, need: nat): Option<Store> {
    if need <= Free(cfg, s) then Some(s)
    else
      var k := FirstFit(s, Free(cfg, s), need);
      if k < |s| then Some(RemoveAt(s, k)) else None
  }

  /** The critical section of a write: size check, room, lock check, store. */
  function WriteSection(cfg: Config, s: Store, c: ClientId, p: Path, data: seq<Byte>): Result {
    if |data| > cfg.maxMem then Result(s, FAIL)
    else match MakeRoom(cfg, s, |data|)
      case None => Result(s, FAIL)
      case Some(s1) => if HasLock(s1, p, c) then WriteFile(s1, p, data) else Result(s1, FAIL)
  }

  function AppendSection(cfg: Config, s: Store, c: ClientId, p: Path, data: seq<Byte>): Result {
    match MakeRoom(cfg, s, |data|)
    case None => Result(s, FAIL)
    case Some(s1) => if HasLock(s1, p, c) then AppendFile(s1, p, data) else Result(s1, FAIL)
  }

  // ----- Requests -----

  datatype Request =
    | Open(path: Path, create: bool, lock: bool)
    | Lock(path: Path)
    | Unlock(path: Path)
    | Write(path: Path, data: seq<Byte>)
    | Append(path: Path, data: seq<Byte>)
    | Read(path: Path)
    | ReadN(n: int)
    | Close(path: Path)
    | Delete(path: Path)

  /** Writes and appends, which have a critical section of several steps. */
  predicate IsSection(req: Request) {
    req.Write? || req.Append?
  }

  /** What one request does when it runs alone; status WAIT means it must wait and try again. */
  function Outcome(cfg: Config, s: Store, c: ClientId, req: Request): (r: Result)
    ensures r.status == WAIT ==> (req.Open? || req.Lock?) && r.files == s
  {
    match req
    case Open(p, create, lock) => OpenFile(cfg, s, p, create, lock, c)
    case Lock(p) => LockFile(s, p, c)
    case Unlock(p) => UnlockFile(s, p, c)
    case Write(p, data) => WriteSection(cfg, s, c, p, data)
    case Append(p, data) => AppendSection(cfg, s, c, p, data)
    case Read(p) => Result(s, if ReadFile(s, p).Some? then OK else FAIL)
    case ReadN(n) => Result(s, OK)
    case Close(p) => CloseFile(s, p, c)
    case Delete(p) => DeleteFile(s, p, c)
  }

  /** The lock holder's write of no bytes reads nothing; a variable that this leaves unset, here
      `unset`, is then taken for the result, and at -1 nothing is stored and nothing answered. */
  predicate Unanswered(s: Store, c: ClientId, req: Request, unset: int) {
    req.Write? && req.data == [] && unset == -1 && HasLock(s, req.path, c)
  }

  /** What the server does for a request, the unset variable included. */
  function Served(cfg: Config, s: Store, c: ClientId, req: Request, unset: int): (r: Result)
    ensures r.status == WAIT ==> (req.Open? || req.Lock?) && r.files == s
    ensures !IsSection(req) ==> r == Outcome(cfg, s, c, req)
  {
    if Unanswered(s, c, req, unset) then Result(s, UNANSWERED) else Outcome(cfg, s, c, req)
  }

  // ----- Lemmas about lookup and sizes -----

  lemma NamedOnce(s: Store, k: nat)
    requires Distinct(s) && k < |s|
    ensures forall i :: 0 <= i < |s| && i != k ==> s[i].path != s[k].path
  {
    forall i | 0 <= i < |s| && i != k ensures s[i].path != s[k].path {
      assert if i < k then Apart(s, i, k) else Apart(s, k, i);
    }
  }

  /** With distinct names a first-match scan finds the only match. */
  lemma FindUnique(s: Store, i: nat)
    requires Distinct(s) && i < |s|
    ensures Find(s, s[i].path) == i
  {
    NamedOnce(s, i);
  }

  /** The file of that name, and the only one. */
  ghost predicate Names(s: Store, k: int, p: Path) {
    Distinct(s) && 0 <= k < |s| && s[k].path == p
  }

  /** The file is free, or the client's own. */
  predicate Available(f: File, c: ClientId) {
    f.owner == 0 || f.owner == c
  }

  ghost predicate Absent(s: Store, p: Path) {
    forall i :: 0 <= i < |s| ==> s[i].path != p
  }

  lemma SameNamesDistinct(s: Store, t: Store)
    requires Distinct(s) && |t| == |s| && forall i :: 0 <= i < |s| ==> t[i].path == s[i].path
    ensures Distinct(t)
  {
    forall i, j | 0 <= i < j < |t| ensures Apart(t, i, j) {
      assert Apart(s, i, j);
    }
  }

  lemma RemovalDistinct(s: Store, k: nat)
    requires Distinct(s) && k < |s|
    ensures Distinct(RemoveAt(s, k))
  {
    var t := RemoveAt(s, k);
    forall i, j | 0 <= i < j < |t| ensures Apart(t, i, j) {
      assert Apart(s, if i < k then i else i + 1, if j < k then j else j + 1);
    }
  }

  lemma {:induction false} TotalSame(s: Store, t: Store, n: nat)
    requires n <= |s| && n <= |t| && forall i :: 0 <= i < n ==> s[i] == t[i]
    ensures TotalTo(s, n) == TotalTo(t, n)
  {
    if n > 0 {
      TotalSame(s, t, n - 1);
    }
  }

  lemma {:induction false} TotalToUpdate(s: Store, k: nat, f: File, n: nat)
    requires k < n <= |s|
    ensures TotalTo(s[k := f], n) == TotalTo(s, n) - |s[k].bytes| + |f.bytes|
  {
    if k < n - 1 {
      TotalToUpdate(s, k, f, n - 1);
    } else {
      TotalSame(s[k := f], s, k);
    }
  }

  lemma TotalUpdate(s: Store, k: nat, f: File)
    requires k < |s|
    ensures Total(s[k := f]) == Total(s) - |s[k].bytes| + |f.bytes|
  {
    TotalToUpdate(s, k, f, |s|);
  }

  lemma {:induction false} TotalToRemove(s: Store, k: nat, n: nat)
    requires k < n <= |s|
    ensures TotalTo(RemoveAt(s, k), n - 1) == TotalTo(s, n) - |s[k].bytes|
  {
    if k < n - 1 {
      TotalToRemove(s, k, n - 1);
    } else {
      TotalSame(RemoveAt(s, k), s, k);
    }
  }

  lemma TotalRemove(s: Store, k: nat)
    requires k < |s|
    ensures Total(RemoveAt(s, k)) == Total(s) - |s[k].bytes|
  {
    TotalToRemove(s, k, |s|);
  }

  lemma TotalAdd(s: Store, f: File)
    ensures Total(s + [f]) == Total(s) + |f.bytes|
  {
    TotalSame(s + [f], s, |s|);
  }

  lemma {:induction false} TotalToAtLeast(s: Store, k: nat, n: nat)
    requires k < n <= |s|
    ensures |s[k].bytes| <= TotalTo(s, n)
  {
    if k < n - 1 {
      TotalToAtLeast(s, k, n - 1);
    }
  }

  lemma TotalAtLeast(s: Store, k: nat)
    requires k < |s|
    ensures |s[k].bytes| <= Total(s)
  {
    TotalToAtLeast(s, k, |s|);
  }

  // ----- Eviction -----

  lemma FreeAfterRemoval(cfg: Config, s: Store, i: nat)
    requires i < |s|
    ensures Free(cfg, RemoveAt(s, i)) == Free(cfg, s) + |s[i].bytes|
  {
    TotalRemove(s, i);
  }

  /** A request that does not fit finds no victim exactly when no single file would do. */
  lemma NoVictimIff(cfg: Config, s: Store, need: nat)
    requires Free(cfg, s) < need
    ensures MakeRoom(cfg, s, need) == None <==> forall i :: 0 <= i < |s| ==> Free(cfg, RemoveAt(s, i)) < need
  {
    forall i | 0 <= i < |s| ensures Free(cfg, RemoveAt(s, i)) == Free(cfg, s) + |s[i].bytes| {
      FreeAfterRemoval(cfg, s, i);
    }
    var k := FirstFit(s, Free(cfg, s), need);
    assert k < |s| ==> Free(cfg, RemoveAt(s, k)) >= need;
  }

  /** Otherwise the oldest file whose removal alone makes room is the one that goes; it is not empty,
      and the rest keeps its order. */
  lemma EvictionIsFirstFit(cfg: Config, s: Store, need: nat, k: nat)
    requires Free(cfg, s) < need && k < |s|
    requires Free(cfg, RemoveAt(s, k)) >= need && forall i :: 0 <= i < k ==> Free(cfg, RemoveAt(s, i)) < need
    ensures MakeRoom(cfg, s, need) == Some(RemoveAt(s, k)) && s[k].bytes != []
  {
    FreeAfterRemoval(cfg, s, k);
    forall i | 0 <= i < k ensures Free(cfg, s) + |s[i].bytes| < need {
      FreeAfterRemoval(cfg, s, i);
    }
    assert FirstFit(s, Free(cfg, s), need) == k;
  }

  /** Making room never goes for a request larger than the whole memory, so the refusal of the
      size check and the refusal for lack of a victim agree. */
  lemma TooBigFindsNoVictim(cfg: Config, s: Store, need: nat)
    requires need > cfg.maxMem
    ensures MakeRoom(cfg, s, need) == None
  {
    var k := FirstFit(s, Free(cfg, s), need);
    if k < |s| {
      TotalAtLeast(s, k);
    }
  }

  /** A freshly created, still empty file survives any eviction, so its owner's write of a size
      the memory can hold is refused only when no single file frees enough room. */
  lemma WriteAfterCreate(cfg: Config, s: Store, c: ClientId, p: Path, data: seq<Byte>)
    requires Distinct(s) && |data| <= cfg.maxMem
    requires Has(s, p) && Get(s, p) == File(p, [], c, true)
    ensures var r := WriteSection(cfg, s, c, p, data);
            if MakeRoom(cfg, s, |data|) == None then r == Result(s, FAIL)
            else r.status == OK && Has(r.files, p) && Get(r.files, p) == File(p, data, c, true)
  {
    match MakeRoom(cfg, s, |data|)
    case None =>
    case Some(s1) =>
      var i, k := Find(s, p), FirstFit(s, Free(cfg, s), |data|);
      var j := i;
      if |data| > Free(cfg, s) {
        assert k != i;
        RemovalDistinct(s, k);
        j := if i < k then i else i - 1;
      }
      assert s1[j] == s[i];
      WriteAt(s1, j, data);
  }

  lemma WriteAt(s: Store, j: nat, data: seq<Byte>)
    requires Distinct(s) && j < |s| && s[j].open
    ensures Has(s, s[j].path) && Get(s, s[j].path) == s[j]
    ensures var r := WriteFile(s, s[j].path, data);
            r.status == OK && Has(r.files, s[j].path) && Get(r.files, s[j].path) == s[j].(bytes := data)
  {
    FindUnique(s, j);
    var t := s[j := s[j].(bytes := data)];
    SameNamesDistinct(s, t);
    FindUnique(t, j);
  }

  // ----- What each operation answers, told by the file itself -----

  /** A read answers the bytes of the file if it is open, whoever owns it. */
  lemma ReadAnswers(s: Store, p: Path, k: int)
    ensures Names(s, k, p) ==> ReadFile(s, p) == if s[k].open then Some(s[k].bytes) else None
    ensures Absent(s, p) ==> ReadFile(s, p) == None
  {
    if Names(s, k, p) {
      FindUnique(s, k);
    }
  }

  /** A lock succeeds on an open file that is free or the client's own, and makes it the client's; it waits
      for an open file of another client. */
  lemma LockAnswers(s: Store, p: Path, c: ClientId, k: int)
    ensures Names(s, k, p) ==>
              LockFile(s, p, c) == if !s[k].open then Result(s, FAIL)
                                   else if Available(s[k], c) then Result(s[k := s[k].(owner := c)], OK)
                                   else Result(s, WAIT)
    ensures Absent(s, p) ==> LockFile(s, p, c) == Result(s, FAIL)
  {
    if Names(s, k, p) {
      FindUnique(s, k);
    }
  }

  /** When an open succeeds. Of a file that is there: without the create flag, and with the lock flag only
      if it is open and free or the client's own, which it then is. Of a file that is not: with the
      create flag or without the lock flag, if there is a place left, which a new empty file takes. */
  lemma OpenAnswers(cfg: Config, s: Store, p: Path, create: bool, lock: bool, c: ClientId, k: int)
    requires |s| <= cfg.maxFile
    ensures Names(s, k, p) ==>
              var r := OpenFile(cfg, s, p, create, lock, c);
              && (r.status == OK <==> !create && (lock ==> s[k].open && Available(s[k], c)))
              && (r.status == WAIT <==> !create && lock && s[k].open && !Available(s[k], c))
              && r.files == if r.status == OK && lock then s[k := s[k].(owner := c)] else s
    ensures Absent(s, p) ==>
              var r := OpenFile(cfg, s, p, create, lock, c);
              && (r.status == OK <==> (create || !lock) && |s| < cfg.maxFile)
              && r.status != WAIT
              && r.files == if r.status == OK then s + [File(p, [], if lock then c else 0, true)] else s
  {
    if Names(s, k, p) {
      FindUnique(s, k);
      LockAnswers(s, p, c, k);
    }
  }

  /** Unlocking, closing and deleting are for the owner of an open file; unlocking a free one and closing a
      closed one succeed without effect. */
  lemma OwnerAnswers(s: Store, p: Path, c: ClientId, k: int)
    requires Names(s, k, p)
    ensures UnlockFile(s, p, c) == if s[k].open && s[k].owner == c then Result(s[k := s[k].(owner := 0)], OK)
                                   else Result(s, if s[k].open && s[k].owner == 0 then OK else FAIL)
    ensures CloseFile(s, p, c) == if s[k].open && s[k].owner == c then Result(s[k := s[k].(open := false)], OK)
                                  else Result(s, if s[k].open then FAIL else OK)
    ensures DeleteFile(s, p, c) ==
            if s[k].open && s[k].owner == c then Result(s[..k] + s[k + 1..], OK) else Result(s, FAIL)
  {
    FindUnique(s, k);
  }

  /** The lock is its owner's, whether or not the file is open; an open file gets the bytes, or gets them
      added. */
  lemma BytesAnswer(s: Store, p: Path, c: ClientId, data: seq<Byte>, k: int)
    requires Names(s, k, p)
    ensures HasLock(s, p, c) <==> s[k].owner == c
    ensures WriteFile(s, p, data) == if s[k].open then Result(s[k := s[k].(bytes := data)], OK) else Result(s, FAIL)
    ensures AppendFile(s, p, data)
            == if s[k].open then Result(s[k := s[k].(bytes := s[k].bytes + data)], OK) else Result(s, FAIL)
  {
    FindUnique(s, k);
  }

  /** Nobody has the lock of a file that is not there, and nothing can be done to it. */
  lemma AbsentFails(s: Store, p: Path, c: ClientId, data: seq<Byte>)
    requires Absent(s, p)
    ensures !HasLock(s, p, c)
    ensures Result(s, FAIL) == UnlockFile(s, p, c) == CloseFile(s, p, c) == DeleteFile(s, p, c)
    ensures Result(s, FAIL) == WriteFile(s, p, data) == AppendFile(s, p, data)
  {
  }
}
