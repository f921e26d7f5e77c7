/** What happened to the table, event by event.

    An event log is the reference the server is compared with: `Apply` says what an event means
    for an insertion-ordered map of files, without any list scan, and `Legal` says when it may
    happen. The server's threads are proved to take legal events only, and their table is proved
    to be the log replayed (module `ServerStore`); everything this module proves about legal logs
    therefore holds in every reachable state of the server. */
module EventLog {
  import opened Files

  datatype Event =
    | Created(path: Path, actor: ClientId, owner: int)
    | Locked(path: Path, actor: ClientId)
    | Unlocked(path: Path, actor: ClientId)
    | Wrote(path: Path, actor: ClientId, data: seq<Byte>)
    | Appended(path: Path, actor: ClientId, data: seq<Byte>)
    | Closed(path: Path, actor: ClientId)
    | Deleted(path: Path, actor: ClientId)
    | Evicted(path: Path, actor: ClientId, need: nat, forWrite: bool)

  type Log = seq<Event>

  /** When an event may happen to table `s`. */
  ghost predicate Legal(cfg: Config, s: Store, e: Event) {
    match e
    case Created(p, c, o) => !Has(s, p) && |s| < cfg.maxFile && (o == 0 || o == c)
    case Evicted(p, c, need, _) =>
      Has(s, p) && need > Free(cfg, s) && Find(s, p) == FirstFit(s, Free(cfg, s), need)
    case Locked(p, c) => Has(s, p) && Get(s, p).open && Get(s, p).owner == 0
    case Wrote(p, c, d) => HasLock(s, p, c) && Get(s, p).open && |d| <= Free(cfg, s)
    case Appended(p, c, d) => HasLock(s, p, c) && Get(s, p).open && |d| <= Free(cfg, s)
    case Unlocked(p, c) => HasLock(s, p, c) && Get(s, p).open
    case Closed(p, c) => HasLock(s, p, c) && Get(s, p).open
    case Deleted(p, c) => HasLock(s, p, c) && Get(s, p).open
  }

  /** The entry an event leaves under its path, given the entry it finds there. */
  function NewEntry(f: Option<File>, e: Event): (r: Option<File>)
    ensures r.None? <==> e.Deleted? || e.Evicted? || (f.None? && !e.Created?)
    ensures r.Some? && (f.Some? ==> f.value.path == e.path) ==> r.value.path == e.path
  {
    match e
    case Created(p, _, o) => Some(File(p, [], o, true))
    case Deleted(_, _) => None
    case Evicted(_, _, _, _) => None
    case _ =>
      match f
      case None => None
      case Some(f) => Some(match e
        case Locked(_, c) => f.(owner := c)
        case Unlocked(_, _) => f.(owner := 0)
        case Wrote(_, _, d) => f.(bytes := d)
        case Appended(_, _, d) => f.(bytes := f.bytes + d)
        case _ => f.(open := false))
  }

  /** An event on the ordered table: insertion at the end, removal, or a change of the entry in
      its place. */
  function Apply(s: Store, e: Event): Store {
    if e.Created? then s + [File(e.path, [], e.owner, true)]
    else if e.Deleted? || e.Evicted? then Without(s, e.path)
    else seq(|s|, i requires 0 <= i < |s| => if s[i].path == e.path then NewEntry(Some(s[i]), e).value else s[i])
  }

  /** All files but those named `p`, in order. */
  function Without(s: Store, p: Path): Store {
    WithoutTo(s, p, |s|)
  }

  function WithoutTo(s: Store, p: Path, n: nat): Store
    requires n <= |s|
  {
    if n == 0 then [] else WithoutTo(s, p, n - 1) + if s[n - 1].path == p then [] else [s[n - 1]]
  }

  function Rebuild(log: Log): Store {
    RebuildTo(log, |log|)
  }

  /** The table after the first `n` events. */
  function RebuildTo(log: Log, n: nat): Store
    requires n <= |log|
  {
    if n == 0 then [] else Apply(RebuildTo(log, n - 1), log[n - 1])
  }

  ghost predicate LegalLog(cfg: Config, log: Log) {
    LegalTo(cfg, log, |log|)
  }

  ghost predicate LegalTo(cfg: Config, log: Log, n: nat)
    requires n <= |log|
  {
    n > 0 ==> LegalTo(cfg, log, n - 1) && Legal(cfg, RebuildTo(log, n - 1), log[n - 1])
  }

  lemma {:induction false} RebuildSame(log: Log, e: Event, n: nat)
    requires n <= |log|
    ensures RebuildTo(log + [e], n) == RebuildTo(log, n)
  {
    if n > 0 {
      RebuildSame(log, e, n - 1);
    }
  }

  lemma {:induction false} LegalSame(cfg: Config, log: Log, e: Event, n: nat)
    requires n <= |log|
    ensures LegalTo(cfg, log + [e], n) <==> LegalTo(cfg, log, n)
  {
    if n > 0 {
      LegalSame(cfg, log, e, n - 1);
      RebuildSame(log, e, n - 1);
    }
  }

  lemma LogStep(cfg: Config, log: Log, e: Event)
    requires LegalLog(cfg, log) && Legal(cfg, Rebuild(log), e)
    ensures LegalLog(cfg, log + [e]) && Rebuild(log + [e]) == Apply(Rebuild(log), e)
  {
    LegalSame(cfg, log, e, |log|);
    RebuildSame(log, e, |log|);
  }

  // ----- Removal by name -----

  lemma {:induction false} WithoutAbsent(s: Store, p: Path, n: nat)
    requires n <= |s| && forall i :: 0 <= i < n ==> s[i].path != p
    ensures WithoutTo(s, p, n) == s[..n]
  {
    if n > 0 {
      WithoutAbsent(s, p, n - 1);
    }
  }

  lemma {:induction false} WithoutOnce(s: Store, k: nat, n: nat)
    requires k < n <= |s| && forall i :: 0 <= i < |s| && i != k ==> s[i].path != s[k].path
    ensures WithoutTo(s, s[k].path, n) == s[..k] + s[k + 1..n]
  {
    if n == k + 1 {
      WithoutAbsent(s, s[k].path, k);
    } else {
      WithoutOnce(s, k, n - 1);
    }
  }

  lemma WithoutIsRemoveAt(s: Store, k: nat)
    requires Distinct(s) && k < |s|
    ensures Without(s, s[k].path) == RemoveAt(s, k)
  {
    NamedOnce(s, k);
    WithoutOnce(s, k, |s|);
  }

  lemma {:induction false} WithoutPoint(s: Store, t: Store, p: Path, n: nat)
    requires n <= |s| && n <= |t|
    requires forall i :: 0 <= i < n ==> s[i] == t[i] || s[i].path == t[i].path == p
    ensures WithoutTo(s, p, n) == WithoutTo(t, p, n)
  {
    if n > 0 {
      WithoutPoint(s, t, p, n - 1);
    }
  }

  lemma {:induction false} WithoutHasNone(s: Store, p: Path, n: nat)
    requires n <= |s|
    ensures forall i :: 0 <= i < |WithoutTo(s, p, n)| ==> WithoutTo(s, p, n)[i].path != p
  {
    if n > 0 {
      WithoutHasNone(s, p, n - 1);
    }
  }

  /** An event changes nothing but the entry of its own path: all other files keep their content
      and their order. */
  lemma FrameOfEvent(s: Store, e: Event)
    ensures Without(Apply(s, e), e.path) == Without(s, e.path)
  {
    var t := Apply(s, e);
    if e.Deleted? || e.Evicted? {
      WithoutHasNone(s, e.path, |s|);
      WithoutAbsent(t, e.path, |t|);
    } else {
      WithoutPoint(t, s, e.path, |s|);
    }
  }

  // ----- The ordered map -----

  /** A finite map that remembers the order in which its keys were inserted. */
  datatype OrderedMap = OrderedMap(order: seq<Path>, at: map<Path, File>)

  function Order(s: Store): (o: seq<Path>)
    ensures |o| == |s| && forall i :: 0 <= i < |s| ==> o[i] == s[i].path
  {
    seq(|s|, i requires 0 <= i < |s| => s[i].path)
  }

  /** The first `n` files under their names, put in one after the other. */
  function MapTo(s: Store, n: nat): map<Path, File>
    requires n <= |s|
  {
    if n == 0 then map[] else MapTo(s, n - 1)[s[n - 1].path := s[n - 1]]
  }

  function AsMap(s: Store): OrderedMap {
    OrderedMap(Order(s), MapTo(s, |s|))
  }

  function Look(s: Store, p: Path): Option<File> {
    if Has(s, p) then Some(Get(s, p)) else None
  }

  function DropKey(o: seq<Path>, p: Path): seq<Path> {
    DropKeyTo(o, p, |o|)
  }

  function DropKeyTo(o: seq<Path>, p: Path, n: nat): seq<Path>
    requires n <= |o|
  {
    if n == 0 then [] else DropKeyTo(o, p, n - 1) + if o[n - 1] == p then [] else [o[n - 1]]
  }

  function At(m: OrderedMap, p: Path): Option<File> {
    if p in m.at then Some(m.at[p]) else None
  }

  function MapApply(m: OrderedMap, e: Event): OrderedMap {
    match NewEntry(At(m, e.path), e)
    case None => OrderedMap(DropKey(m.order, e.path), m.at - {e.path})
    case Some(f) => OrderedMap(if e.path in m.at then m.order else m.order + [e.path], m.at[e.path := f])
  }

  lemma {:induction false} MapToFinds(s: Store, p: Path, n: nat)
    requires Distinct(s) && n <= |s|
    ensures if Find(s, p) < n then p in MapTo(s, n) && MapTo(s, n)[p] == s[Find(s, p)] else p !in MapTo(s, n)
  {
    if n > 0 {
      MapToFinds(s, p, n - 1);
      FindUnique(s, n - 1);
    }
  }

  /** Where names are distinct, first-match lookup is map lookup, and every file is found under its
      name. */
  lemma LookIsMapLookup(s: Store, p: Path)
    requires Distinct(s)
    ensures Look(s, p) == At(AsMap(s), p)
    ensures forall i :: 0 <= i < |s| && s[i].path == p ==> At(AsMap(s), p) == Some(s[i])
  {
    MapToFinds(s, p, |s|);
    forall i | 0 <= i < |s| && s[i].path == p ensures At(AsMap(s), p) == Some(s[i]) {
      FindUnique(s, i);
    }
  }

  lemma {:induction false} DropKeyOfOrder(s: Store, p: Path, n: nat)
    requires n <= |s|
    ensures Order(WithoutTo(s, p, n)) == DropKeyTo(Order(s), p, n)
  {
    if n > 0 {
      DropKeyOfOrder(s, p, n - 1);
    }
  }

  lemma FindIs(s: Store, p: Path, k: nat)
    requires k <= |s| && (k < |s| ==> s[k].path == p) && forall i :: 0 <= i < k ==> s[i].path != p
    ensures Find(s, p) == k
  {
  }

  /** What an event leaves under its own path, and that it leaves every other path alone. */
  lemma LookAfter(cfg: Config, s: Store, e: Event, q: Path)
    requires Distinct(s) && Legal(cfg, s, e)
    ensures Distinct(Apply(s, e))
    ensures Look(Apply(s, e), q) == if q == e.path then NewEntry(Look(s, q), e) else Look(s, q)
  {
    if e.Created? {
      CreationLook(s, File(e.path, [], e.owner, true), q);
    } else if e.Deleted? || e.Evicted? {
      WithoutIsRemoveAt(s, Find(s, e.path));
      RemovalLook(s, Find(s, e.path), q);
    } else {
      UpdateLook(s, e, q);
    }
  }

  lemma CreationLook(s: Store, f: File, q: Path)
    requires Distinct(s) && !Has(s, f.path)
    ensures Distinct(s + [f])
    ensures Look(s + [f], q) == if q == f.path then Some(f) else Look(s, q)
  {
    var t := s + [f];
    forall i, j | 0 <= i < j < |t| ensures Apart(t, i, j) {
      assert j < |s| ==> Apart(s, i, j);
    }
    FindIs(t, q, if Has(s, q) then Find(s, q) else if q == f.path then |s| else |t|);
  }

  lemma RemovalLook(s: Store, k: nat, q: Path)
    requires Distinct(s) && k < |s|
    ensures Distinct(RemoveAt(s, k))
    ensures Look(RemoveAt(s, k), q) == if q == s[k].path then None else Look(s, q)
  {
    var t, i := RemoveAt(s, k), Find(s, q);
    RemovalDistinct(s, k);
    NamedOnce(s, k);
    FindIs(t, q, if q == s[k].path || i == |s| then |t| else if i < k then i else i - 1);
  }

  lemma SameOrderSameFind(s: Store, t: Store, q: Path)
    requires |s| == |t| && forall i :: 0 <= i < |s| ==> t[i].path == s[i].path
    ensures Find(s, q) == Find(t, q)
  {
  }

  lemma UpdateLook(s: Store, e: Event, q: Path)
    requires Distinct(s) && !e.Created? && !e.Deleted? && !e.Evicted?
    ensures Distinct(Apply(s, e))
    ensures Look(Apply(s, e), q) == if q == e.path then NewEntry(Look(s, q), e) else Look(s, q)
  {
    var t := Apply(s, e);
    assert forall i :: 0 <= i < |s| ==> t[i].path == s[i].path;
    SameNamesDistinct(s, t);
    SameOrderSameFind(s, t, q);
  }

  lemma OrderOfUpdate(s: Store, e: Event)
    requires !e.Created? && !e.Deleted? && !e.Evicted?
    ensures Order(Apply(s, e)) == Order(s)
  {
  }

  lemma OrderAgrees(cfg: Config, s: Store, e: Event)
    requires Distinct(s) && Legal(cfg, s, e)
    ensures Order(Apply(s, e)) == MapApply(AsMap(s), e).order
  {
    var had := At(AsMap(s), e.path);
    LookIsMapLookup(s, e.path);
    if NewEntry(had, e) == None {
      DropKeyOfOrder(s, e.path, |s|);
    } else if e.Created? {
      assert Order(Apply(s, e)) == Order(s) + [e.path];
    } else {
      OrderOfUpdate(s, e);
    }
  }

  lemma MapLookAfter(m: OrderedMap, e: Event, q: Path)
    ensures At(MapApply(m, e), q) == if q == e.path then NewEntry(At(m, q), e) else At(m, q)
  {
  }

  /** The list table refines the insertion-ordered map: every legal event acts on the list as it
      acts on the map. */
  lemma ListRefinesOrderedMap(cfg: Config, s: Store, e: Event)
    requires Distinct(s) && Legal(cfg, s, e)
    ensures AsMap(Apply(s, e)) == MapApply(AsMap(s), e)
  {
    var t := AsMap(Apply(s, e));
    var m := MapApply(AsMap(s), e);
    forall q: Path ensures At(t, q) == At(m, q) {
      LookAfter(cfg, s, e, q);
      LookIsMapLookup(s, q);
      LookIsMapLookup(Apply(s, e), q);
      MapLookAfter(AsMap(s), e, q);
    }
    OrderAgrees(cfg, s, e);
    MapsAgree(t, m);
  }

  lemma MapsAgree(m: OrderedMap, n: OrderedMap)
    requires m.order == n.order && forall q: Path :: At(m, q) == At(n, q)
    ensures m == n
  {
    forall q: Path
      ensures q in m.at <==> q in n.at
      ensures q in m.at ==> m.at[q] == n.at[q]
    {
      assert At(m, q) == At(n, q);
    }
    assert m.at == n.at;
  }

  /** The map after the first `n` events. */
  function ReplayTo(log: Log, n: nat): OrderedMap
    requires n <= |log|
  {
    if n == 0 then OrderedMap([], map[]) else MapApply(ReplayTo(log, n - 1), log[n - 1])
  }
}
