/** What holds of every legal event log, hence of every run of the server. */
module LogTheorems {
  import opened Files
  import opened EventLog

  // ----- Well-formedness: distinct names, memory and file limits -----

  /** By how much an event grows the total size. */
  function Growth(s: Store, e: Event): int
    requires Has(s, e.path) || e.Created?
  {
    if e.Wrote? then |e.data| - |Get(s, e.path).bytes|
    else if e.Appended? then |e.data|
    else if e.Deleted? || e.Evicted? then -|Get(s, e.path).bytes|
    else 0
  }

  lemma SizeAfter(cfg: Config, s: Store, e: Event)
    requires Distinct(s) && Legal(cfg, s, e)
    ensures |Apply(s, e)| == |s| + if e.Created? then 1 else if e.Deleted? || e.Evicted? then -1 else 0
    ensures Total(Apply(s, e)) == Total(s) + Growth(s, e)
  {
    var k := Find(s, e.path);
    if e.Created? {
      TotalAdd(s, File(e.path, [], e.owner, true));
    } else if e.Deleted? || e.Evicted? {
      WithoutIsRemoveAt(s, k);
      TotalRemove(s, k);
    } else {
      UpdateInPlace(s, e);
      TotalUpdate(s, k, NewEntry(Some(s[k]), e).value);
    }
  }

  /** With distinct names, changing every file of that name is changing the one found. */
  lemma UpdateInPlace(s: Store, e: Event)
    requires Distinct(s) && Has(s, e.path) && !e.Created? && !e.Deleted? && !e.Evicted?
    ensures Apply(s, e) == s[Find(s, e.path) := NewEntry(Some(Get(s, e.path)), e).value]
  {
    NamedOnce(s, Find(s, e.path));
  }

  lemma LegalKeepsWellFormed(cfg: Config, s: Store, e: Event)
    requires WellFormed(cfg, s) && Legal(cfg, s, e)
    ensures WellFormed(cfg, Apply(s, e))
  {
    LookAfter(cfg, s, e, e.path);
    SizeAfter(cfg, s, e);
  }

  lemma {:induction false} PrefixesStayWellFormed(cfg: Config, log: Log, n: nat)
    requires n <= |log| && LegalTo(cfg, log, n)
    ensures WellFormed(cfg, RebuildTo(log, n))
  {
    if n > 0 {
      PrefixesStayWellFormed(cfg, log, n - 1);
      LegalKeepsWellFormed(cfg, RebuildTo(log, n - 1), log[n - 1]);
    }
  }

  /** Capacity over every run: sizes never sum to more than the memory limit, the file count
      never exceeds the file limit, names stay distinct. */
  lemma RunsStayWellFormed(cfg: Config, log: Log)
    requires LegalLog(cfg, log)
    ensures WellFormed(cfg, Rebuild(log))
  {
    PrefixesStayWellFormed(cfg, log, |log|);
  }

  lemma {:induction false} PrefixesRefineOrderedMap(cfg: Config, log: Log, n: nat)
    requires n <= |log| && LegalTo(cfg, log, n)
    ensures AsMap(RebuildTo(log, n)) == ReplayTo(log, n)
  {
    if n > 0 {
      PrefixesRefineOrderedMap(cfg, log, n - 1);
      PrefixesStayWellFormed(cfg, log, n - 1);
      ListRefinesOrderedMap(cfg, RebuildTo(log, n - 1), log[n - 1]);
    }
  }

  /** A whole legal log replayed on the list is the same log replayed on the insertion-ordered map. */
  lemma ReplayRefinesOrderedMap(cfg: Config, log: Log, p: Path)
    requires LegalLog(cfg, log)
    ensures AsMap(Rebuild(log)) == ReplayTo(log, |log|)
    ensures Look(Rebuild(log), p) == At(ReplayTo(log, |log|), p)
  {
    PrefixesRefineOrderedMap(cfg, log, |log|);
    RunsStayWellFormed(cfg, log);
    LookIsMapLookup(Rebuild(log), p);
  }

  // ----- Ownership and contents -----

  /** A present file's owner changes only from 0 to a client that took the lock, or from a client
      to 0 by that client's own unlock. */
  lemma OwnerDiscipline(cfg: Config, s: Store, e: Event, p: Path)
    requires Distinct(s) && Legal(cfg, s, e) && Has(s, p) && Has(Apply(s, e), p)
    ensures Get(Apply(s, e), p).owner == Get(s, p).owner
            || (Get(s, p).owner == 0 && e == Locked(p, e.actor) && Get(Apply(s, e), p).owner == e.actor)
            || (Get(s, p).owner == e.actor && e == Unlocked(p, e.actor) && Get(Apply(s, e), p).owner == 0)
  {
    LookAfter(cfg, s, e, p);
  }

  /** A file leaves the table only by its owner's delete or by eviction, and never while it is
      empty in the latter case; it appears only by creation, empty. */
  lemma PresenceDiscipline(cfg: Config, s: Store, e: Event, p: Path)
    requires Distinct(s) && Legal(cfg, s, e)
    ensures Has(s, p) && !Has(Apply(s, e), p) ==>
              (e == Deleted(p, e.actor) && Get(s, p).owner == e.actor)
              || (e.Evicted? && e.path == p && Get(s, p).bytes != [])
    ensures !Has(s, p) && Has(Apply(s, e), p) ==>
              e.Created? && e.path == p && Get(Apply(s, e), p) == File(p, [], e.owner, true)
  {
    LookAfter(cfg, s, e, p);
  }

  /** A present file's bytes change only by an event of its owner, who still owns it afterwards. */
  lemma ContentsDiscipline(cfg: Config, s: Store, e: Event, p: Path)
    requires Distinct(s) && Legal(cfg, s, e) && Has(s, p) && Has(Apply(s, e), p)
    requires Get(Apply(s, e), p).bytes != Get(s, p).bytes
    ensures (e.Wrote? || e.Appended?) && e.path == p && Get(s, p).open
    ensures Get(s, p).owner == e.actor == Get(Apply(s, e), p).owner
  {
    LookAfter(cfg, s, e, p);
  }

  /** A closed file stays closed as long as it stays. */
  lemma ClosedForGood(cfg: Config, s: Store, e: Event, p: Path)
    requires Distinct(s) && Legal(cfg, s, e) && Has(s, p) && !Get(s, p).open && Has(Apply(s, e), p)
    ensures Get(Apply(s, e), p) == Get(s, p)
  {
    LookAfter(cfg, s, e, p);
  }

  // ----- Reading returns history -----

  ghost predicate SetsContents(e: Event, p: Path) {
    e.path == p && (e.Created? || e.Wrote?)
  }

  /** Index of the last of the first `n` events that set the contents of `p` afresh, or -1. */
  ghost function LastSet(log: Log, p: Path, n: nat): (k: int)
    requires n <= |log|
    ensures -1 <= k < n
    ensures 0 <= k ==> SetsContents(log[k], p)
    ensures forall i :: k < i < n ==> !SetsContents(log[i], p)
  {
    if n == 0 then -1 else if SetsContents(log[n - 1], p) then n - 1 else LastSet(log, p, n - 1)
  }

  function AppendedBy(e: Event, p: Path): seq<Byte> {
    if e.Appended? && e.path == p then e.data else []
  }

  /** The data of the appends to `p` among events `from` to `to`, in order, joined. */
  function Appends(log: Log, p: Path, from: nat, to: nat): seq<Byte>
    requires from <= to <= |log|
  {
    if from == to then [] else Appends(log, p, from, to - 1) + AppendedBy(log[to - 1], p)
  }

  /** The bytes of the last write since creation, then all later appends in order. */
  ghost function HistoryTo(log: Log, p: Path, n: nat): seq<Byte>
    requires n <= |log| && LastSet(log, p, n) >= 0
  {
    var k := LastSet(log, p, n);
    (if log[k].Wrote? then log[k].data else []) + Appends(log, p, k + 1, n)
  }

  /** The path was created, and these are the bytes it should hold. */
  ghost predicate HasHistory(log: Log, p: Path, bytes: seq<Byte>) {
    LastSet(log, p, |log|) >= 0 && HistoryTo(log, p, |log|) == bytes
  }

  lemma HistoryStep(log: Log, p: Path, n: nat)
    requires 0 < n <= |log| && LastSet(log, p, n - 1) >= 0 && !SetsContents(log[n - 1], p)
    ensures LastSet(log, p, n) == LastSet(log, p, n - 1)
    ensures HistoryTo(log, p, n) == HistoryTo(log, p, n - 1) + AppendedBy(log[n - 1], p)
  {
    var k := LastSet(log, p, n - 1);
    var base := if log[k].Wrote? then log[k].data else [];
    JoinLater(base, Appends(log, p, k + 1, n - 1), AppendedBy(log[n - 1], p));
  }

  lemma JoinLater(a: seq<Byte>, b: seq<Byte>, c: seq<Byte>)
    ensures a + (b + c) == (a + b) + c
  {
  }

  lemma BytesAfter(cfg: Config, s: Store, e: Event, p: Path)
    requires Distinct(s) && Legal(cfg, s, e) && Has(Apply(s, e), p)
    ensures SetsContents(e, p) ==> Get(Apply(s, e), p).bytes == if e.Wrote? then e.data else []
    ensures !SetsContents(e, p) ==>
              Has(s, p)
              && Get(Apply(s, e), p).bytes == Get(s, p).bytes + AppendedBy(e, p)
  {
    LookAfter(cfg, s, e, p);
  }

  lemma BytesAfterPrefix(cfg: Config, log: Log, p: Path, n: nat)
    requires 0 < n <= |log| && LegalTo(cfg, log, n) && Has(RebuildTo(log, n), p)
    ensures var e, bytes := log[n - 1], Get(RebuildTo(log, n), p).bytes;
            if SetsContents(e, p) then bytes == if e.Wrote? then e.data else []
            else Has(RebuildTo(log, n - 1), p) && bytes == Get(RebuildTo(log, n - 1), p).bytes + AppendedBy(e, p)
  {
    PrefixesStayWellFormed(cfg, log, n - 1);
    BytesAfter(cfg, RebuildTo(log, n - 1), log[n - 1], p);
  }

  lemma {:induction false} PrefixesHoldHistory(cfg: Config, log: Log, p: Path, n: nat)
    requires n <= |log| && LegalTo(cfg, log, n) && Has(RebuildTo(log, n), p)
    ensures LastSet(log, p, n) >= 0
    ensures Get(RebuildTo(log, n), p).bytes == HistoryTo(log, p, n)
  {
    BytesAfterPrefix(cfg, log, p, n);
    if !SetsContents(log[n - 1], p) {
      PrefixesHoldHistory(cfg, log, p, n - 1);
      HistoryStep(log, p, n);
    }
  }

  /** Reading a file yields its history, whatever happened to other paths in between. */
  lemma ReadReturnsHistory(cfg: Config, log: Log, p: Path)
    requires LegalLog(cfg, log) && Has(Rebuild(log), p)
    ensures HasHistory(log, p, Get(Rebuild(log), p).bytes)
  {
    PrefixesHoldHistory(cfg, log, p, |log|);
  }

  // ----- Conservation -----

  /** Events that are counted; a replacement is an eviction made by a write. */
  datatype Kind = Creation | Deletion | Eviction | Replacement

  predicate OfKind(e: Event, k: Kind) {
    match k
    case Creation => e.Created?
    case Deletion => e.Deleted?
    case Eviction => e.Evicted?
    case Replacement => e.Evicted? && e.forWrite
  }

  function Count(log: Log, k: Kind): nat {
    CountTo(log, k, |log|)
  }

  function CountTo(log: Log, k: Kind, n: nat): nat
    requires n <= |log|
  {
    if n == 0 then 0 else CountTo(log, k, n - 1) + if OfKind(log[n - 1], k) then 1 else 0
  }

  lemma {:induction false} CountSame(log: Log, e: Event, k: Kind, n: nat)
    requires n <= |log|
    ensures CountTo(log + [e], k, n) == CountTo(log, k, n)
  {
    if n > 0 {
      CountSame(log, e, k, n - 1);
    }
  }

  lemma CountStep(log: Log, e: Event, k: Kind)
    ensures Count(log + [e], k) == Count(log, k) + if OfKind(e, k) then 1 else 0
  {
    CountSame(log, e, k, |log|);
  }

  lemma {:induction false} PrefixesConserve(cfg: Config, log: Log, n: nat)
    requires n <= |log| && LegalTo(cfg, log, n)
    ensures CountTo(log, Creation, n)
            == |RebuildTo(log, n)| + CountTo(log, Deletion, n) + CountTo(log, Eviction, n)
  {
    if n > 0 {
      PrefixesConserve(cfg, log, n - 1);
      PrefixesStayWellFormed(cfg, log, n - 1);
      SizeAfter(cfg, RebuildTo(log, n - 1), log[n - 1]);
    }
  }

  /** Every file ever created is present, was deleted or was evicted. */
  lemma FilesAreConserved(cfg: Config, log: Log)
    requires LegalLog(cfg, log)
    ensures Count(log, Creation) == |Rebuild(log)| + Count(log, Deletion) + Count(log, Eviction)
  {
    PrefixesConserve(cfg, log, |log|);
  }

  // ----- High-water marks -----

  /** What the statistics keep high-water marks of. */
  datatype Mark = NumFile | Storage

  function Level(s: Store, m: Mark): nat {
    if m == NumFile then |s| else Total(s)
  }

  /** The largest level of the tables after each event so far, and of the empty start. */
  function Peak(log: Log, m: Mark): nat {
    PeakTo(log, m, |log|)
  }

  function PeakTo(log: Log, m: Mark, n: nat): nat
    requires n <= |log|
  {
    if n == 0 then 0
    else
      var before, now := PeakTo(log, m, n - 1), Level(RebuildTo(log, n), m);
      if now > before then now else before
  }

  lemma {:induction false} PeakSame(log: Log, e: Event, m: Mark, n: nat)
    requires n <= |log|
    ensures PeakTo(log + [e], m, n) == PeakTo(log, m, n)
  {
    if n > 0 {
      PeakSame(log, e, m, n - 1);
      RebuildSame(log, e, n);
    }
  }

  lemma PeakStep(log: Log, e: Event, m: Mark)
    ensures var now := Level(Apply(Rebuild(log), e), m);
            Peak(log + [e], m) == if now > Peak(log, m) then now else Peak(log, m)
    ensures Level(Rebuild(log), m) <= Peak(log, m)
  {
    PeakSame(log, e, m, |log|);
    RebuildSame(log, e, |log|);
  }

  ghost predicate Reached(log: Log, m: Mark, k: nat, level: nat)
    requires k <= |log|
  {
    Level(RebuildTo(log, k), m) == level
  }

  lemma {:induction false} PeakIsReached(log: Log, m: Mark, n: nat) returns (k: nat)
    requires n <= |log|
    ensures k <= n && Reached(log, m, k, PeakTo(log, m, n))
  {
    if n == 0 || PeakTo(log, m, n) != PeakTo(log, m, n - 1) {
      k := n;
    } else {
      k := PeakIsReached(log, m, n - 1);
    }
  }

  ghost predicate Within(log: Log, m: Mark, k: nat, peak: nat)
    requires k <= |log|
  {
    Level(RebuildTo(log, k), m) <= peak
  }

  lemma {:induction false} PeakBounds(log: Log, m: Mark, k: nat, n: nat)
    requires k <= n <= |log|
    ensures Within(log, m, k, PeakTo(log, m, n))
    decreases n
  {
    if k != n {
      PeakBounds(log, m, k, n - 1);
    }
  }

  /** The peak bounds the level after every event and was reached. */
  lemma PeakIsMaximum(log: Log, m: Mark)
    ensures forall k :: 0 <= k <= |log| ==> Within(log, m, k, Peak(log, m))
    ensures exists k :: 0 <= k <= |log| && Reached(log, m, k, Peak(log, m))
  {
    forall k: nat | k <= |log| ensures Within(log, m, k, Peak(log, m)) {
      PeakBounds(log, m, k, |log|);
    }
    var k := PeakIsReached(log, m, |log|);
    assert Reached(log, m, k, Peak(log, m));
  }
}
