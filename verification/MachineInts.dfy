/** The arithmetic of the size computations as the machine does it: `int` of 32 bits, `size_t` of
    64 bits, and the conversions between them (C99 section 6.3.1). */
module MachineInts {
  import opened Files

  const INT_MAX := 0x7FFF_FFFF
  const TWO_32 := 0x1_0000_0000
  const TWO_64 := 0x1_0000_0000_0000_0000

  /** Conversion to a 32-bit `int`, wrapping. */
  function ToInt(x: int): int {
    var r := x % TWO_32;
    if r > INT_MAX then r - TWO_32 else r
  }

  /** Conversion to a 64-bit `size_t`. */
  function ToSize(x: int): nat {
    x % TWO_64
  }

  /** One turn of the summing loops: an `int` plus a `size_t`, stored in the `int`. */
  function AddSize(total: int, size: nat): int {
    ToInt(ToSize(ToSize(total) + ToSize(size)))
  }

  function MachineTotal(s: Store): int {
    MachineTotalTo(s, |s|)
  }

  function MachineTotalTo(s: Store, n: nat): int
    requires n <= |s|
  {
    if n == 0 then 0 else AddSize(MachineTotalTo(s, n - 1), |s[n - 1].bytes|)
  }

  function MachineFree(cfg: Config, s: Store): int {
    ToInt(cfg.maxMem - MachineTotal(s))
  }

  /** The test that decides whether to evict: an `int` compared with a `size_t`. */
  predicate MachineNeedsRoom(cfg: Config, s: Store, need: nat) {
    ToSize(MachineFree(cfg, s)) < need
  }

  /** The victim test; the request arrives as a `size_t` and is narrowed to `int` on the way. */
  predicate MachineFits(free: int, size: nat, need: nat) {
    ToSize(ToSize(free) + ToSize(size)) >= ToSize(ToInt(need))
  }

  function MachineVictim(s: Store, free: int, need: nat): (k: nat)
    ensures k <= |s|
    ensures k < |s| ==> MachineFits(free, |s[k].bytes|, need)
    ensures forall i :: 0 <= i < k ==> !MachineFits(free, |s[i].bytes|, need)
  {
    MachineVictimFrom(s, free, need, 0)
  }

  function MachineVictimFrom(s: Store, free: int, need: nat, from: nat): (k: nat)
    requires from <= |s|
    ensures from <= k <= |s|
    ensures k < |s| ==> MachineFits(free, |s[k].bytes|, need)
    ensures forall i :: from <= i < k ==> !MachineFits(free, |s[i].bytes|, need)
    decreases |s| - from
  {
    if from == |s| || MachineFits(free, |s[from].bytes|, need) then from else MachineVictimFrom(s, free, need, from + 1)
  }

  /** Conversion keeps the value up to a multiple of the type's range (C99 section 6.3.1.3). */
  lemma ConversionsWrap(x: int)
    ensures -0x8000_0000 <= ToInt(x) <= 0x7FFF_FFFF && (ToInt(x) - x) % 0x1_0000_0000 == 0
    ensures 0 <= ToSize(x) < 0x1_0000_0000_0000_0000 && (ToSize(x) - x) % 0x1_0000_0000_0000_0000 == 0
  {
  }

  lemma SmallIsExact(x: int)
    ensures 0 <= x <= INT_MAX ==> ToInt(x) == x && ToSize(x) == x
    ensures 0 <= x < TWO_64 ==> ToSize(x) == x
  {
  }

  lemma AddIsExact(total: int, size: nat)
    requires 0 <= total && total + size <= INT_MAX
    ensures AddSize(total, size) == total + size
  {
    SmallIsExact(total);
    SmallIsExact(size);
    SmallIsExact(total + size);
  }

  lemma {:induction false} TotalToIsExact(s: Store, n: nat)
    requires n <= |s| && TotalTo(s, n) <= INT_MAX
    ensures MachineTotalTo(s, n) == TotalTo(s, n)
  {
    if n > 0 {
      TotalToIsExact(s, n - 1);
      AddIsExact(TotalTo(s, n - 1), |s[n - 1].bytes|);
    }
  }

  /** The multiple of 2^32 by which a sum is off. */
  lemma AddWraps(total: int, size: nat)
    ensures -0x8000_0000 <= AddSize(total, size) <= 0x7FFF_FFFF
    ensures (AddSize(total, size) - total - size) % 0x1_0000_0000 == 0
  {
    var a, b := ToSize(total), ToSize(size);
    var sum := ToSize(a + b);
    ConversionsWrap(sum);
    SizeWraps(total, a);
    SizeWraps(size, b);
    SizeWraps(a + b, sum);
    MultiplesAdd(a - total, b - size);
    MultiplesAdd(ToInt(sum) - sum, sum - (a + b));
    MultiplesAdd(ToInt(sum) - (a + b), a - total + (b - size));
  }

  lemma SizeWraps(x: int, size: int)
    requires size == ToSize(x)
    ensures (size - x) % 0x1_0000_0000 == 0
  {
    assert size - x == 0x1_0000_0000 * (-0x1_0000_0000 * (x / 0x1_0000_0000_0000_0000));
  }

  lemma MultiplesAdd(x: int, y: int)
    requires x % 0x1_0000_0000 == 0 && y % 0x1_0000_0000 == 0
    ensures (x + y) % 0x1_0000_0000 == 0
  {
  }

  lemma {:induction false} TotalToWraps(s: Store, n: nat)
    requires n <= |s|
    ensures -0x8000_0000 <= MachineTotalTo(s, n) <= 0x7FFF_FFFF
    ensures (MachineTotalTo(s, n) - TotalTo(s, n)) % 0x1_0000_0000 == 0
  {
    if n > 0 {
      var before, size := MachineTotalTo(s, n - 1), |s[n - 1].bytes|;
      TotalToWraps(s, n - 1);
      AddWraps(before, size);
      MultiplesAdd(AddSize(before, size) - before - size, before - TotalTo(s, n - 1));
      assert AddSize(before, size) - before - size + (before - TotalTo(s, n - 1)) == MachineTotalTo(s, n) - TotalTo(s, n);
    }
  }

  /** For every table the machine's sum is an `int` that differs from the mathematical one by a multiple
      of 2^32. */
  lemma TotalWraps(s: Store)
    ensures -0x8000_0000 <= MachineTotal(s) <= 0x7FFF_FFFF
    ensures (MachineTotal(s) - Total(s)) % 0x1_0000_0000 == 0
  {
    TotalToWraps(s, |s|);
  }

  /** Within capacity the machine's sums and differences are the mathematical ones, and never
      negative. */
  lemma TotalIsExact(s: Store)
    requires Total(s) <= INT_MAX
    ensures MachineTotal(s) == Total(s)
  {
    TotalToIsExact(s, |s|);
  }

  /** Arithmetic follows from capacity: in every well-formed table the free space is computed
      exactly, and the mixed comparison decides what the mathematical one decides. */
  lemma FreeIsExact(cfg: Config, s: Store, need: nat)
    requires WellFormed(cfg, s) && cfg.maxMem <= INT_MAX
    ensures MachineFree(cfg, s) == Free(cfg, s) >= 0
    ensures MachineNeedsRoom(cfg, s, need) <==> Free(cfg, s) < need
  {
    TotalIsExact(s);
    SmallIsExact(Free(cfg, s));
  }

  lemma FitsIsExact(cfg: Config, s: Store, i: nat, need: nat)
    requires WellFormed(cfg, s) && cfg.maxMem <= INT_MAX && i < |s|
    ensures MachineFits(MachineFree(cfg, s), |s[i].bytes|, need)
            <==> Free(cfg, s) + |s[i].bytes| >= ToSize(ToInt(need))
  {
    FreeIsExact(cfg, s, need);
    TotalAtLeast(s, i);
    SmallIsExact(Free(cfg, s));
    SmallIsExact(|s[i].bytes|);
    SmallIsExact(Free(cfg, s) + |s[i].bytes|);
  }

  /** The sizes for which eviction can be trusted: the memory can hold the request, or narrowing it
      to `int` gives a value the memory cannot hold. */
  predicate SoundSize(cfg: Config, need: nat) {
    need <= cfg.maxMem || ToSize(ToInt(need)) > cfg.maxMem
  }

  /** For a sound size the machine's victim is the first fit. */
  lemma VictimIsExact(cfg: Config, s: Store, need: nat)
    requires WellFormed(cfg, s) && cfg.maxMem <= INT_MAX && SoundSize(cfg, need)
    ensures MachineVictim(s, MachineFree(cfg, s), need) == FirstFit(s, Free(cfg, s), need)
  {
    SmallIsExact(need);
    forall i: nat | i < |s|
      ensures MachineFits(MachineFree(cfg, s), |s[i].bytes|, need) <==> Free(cfg, s) + |s[i].bytes| >= need
    {
      FitsIsExact(cfg, s, i, need);
      TotalAtLeast(s, i);
    }
  }

  /** An eviction the machine decides on makes room. */
  ghost predicate EvictionSound(cfg: Config, s: Store, need: nat) {
    var k := MachineVictim(s, MachineFree(cfg, s), need);
    Free(cfg, s) < need && k < |s| ==> Free(cfg, RemoveAt(s, k)) >= need
  }

  /** The sound sizes are exactly those for which an eviction makes room, whatever the table. A write
      is checked against the memory size beforehand, an append is not. */
  lemma EvictionSoundIff(cfg: Config, need: nat)
    requires cfg.maxMem <= INT_MAX && need < TWO_64 && cfg.maxFile >= 1
    ensures (forall s: Store :: WellFormed(cfg, s) ==> EvictionSound(cfg, s, need))
            <==> SoundSize(cfg, need)
  {
    if SoundSize(cfg, need) {
      forall s: Store | WellFormed(cfg, s) ensures EvictionSound(cfg, s, need) {
        SoundWhenHeld(cfg, s, need);
      }
    } else {
      UnsoundForOneFile(cfg, need);
    }
  }

  /** With one empty file in the table, narrowing a too large request to a size that fits evicts
      that file and leaves no room. */
  lemma UnsoundForOneFile(cfg: Config, need: nat)
    requires cfg.maxMem <= INT_MAX && cfg.maxFile >= 1 && !SoundSize(cfg, need)
    ensures var s := [File("/", [], 0, true)]; WellFormed(cfg, s) && !EvictionSound(cfg, s, need)
  {
    var s := [File("/", [], 0, true)];
    assert Total(s) == TotalTo(s, 0) == 0;
    FitsIsExact(cfg, s, 0, need);
    TotalRemove(s, 0);
  }

  lemma SoundWhenHeld(cfg: Config, s: Store, need: nat)
    requires cfg.maxMem <= INT_MAX && WellFormed(cfg, s) && SoundSize(cfg, need)
    ensures EvictionSound(cfg, s, need)
  {
    var k := MachineVictim(s, MachineFree(cfg, s), need);
    VictimIsExact(cfg, s, need);
    if k < |s| {
      TotalRemove(s, k);
    }
  }

  // ----- Appends of any size -----

  /** Room as the machine makes it. */
  function MachineRoom(cfg: Config, s: Store, need: nat): Option<Store> {
    var k := MachineVictim(s, MachineFree(cfg, s), need);
    if !MachineNeedsRoom(cfg, s, need) then Some(s) else if k < |s| then Some(RemoveAt(s, k)) else None
  }

  /** The critical section of an append as the machine runs it. */
  function MachineAppend(cfg: Config, s: Store, c: ClientId, p: Path, data: seq<Byte>): Result {
    match MachineRoom(cfg, s, |data|)
    case None => Result(s, FAIL)
    case Some(s1) => if HasLock(s1, p, c) then AppendFile(s1, p, data) else Result(s1, FAIL)
  }

  lemma RoomIsExact(cfg: Config, s: Store, need: nat)
    requires WellFormed(cfg, s) && cfg.maxMem <= INT_MAX && SoundSize(cfg, need)
    ensures MachineRoom(cfg, s, need) == MakeRoom(cfg, s, need)
  {
    FreeIsExact(cfg, s, need);
    VictimIsExact(cfg, s, need);
  }

  /** For a sound size an append does what the specification says. */
  lemma AppendIsExact(cfg: Config, s: Store, c: ClientId, p: Path, data: seq<Byte>)
    requires WellFormed(cfg, s) && cfg.maxMem <= INT_MAX && SoundSize(cfg, |data|)
    ensures MachineAppend(cfg, s, c, p, data) == AppendSection(cfg, s, c, p, data)
  {
    RoomIsExact(cfg, s, |data|);
  }
}
