/** One exchange between a client and the worker that serves it, over two reliable byte streams.

    Frames arrive whole; file bytes arrive in pieces of any size. The client is `writeFile`,
    `appendToFile`, `readFile` or one of the calls that send a request and read one response; the
    server is the matching controller, for any table it may find.

    The two programs fit because at every moment what has been sent and not yet read, followed by
    what the sender will still send, is what the reader will still read, in both directions. */
module Exchange {
  import opened Files
  import opened MachineInts
  import opened Operations
  import opened FileList

  // ----- What the server finds -----

  /** The course an exchange takes on the server: one response; a file; or, for a write or append,
      possibly an evicted file first, then refusal for lack of the lock, or readiness for the data
      and the status of storing it. */
  datatype Verdict =
    | Answer(code: int)
    | SendFile(bytes: seq<Byte>)
    | Take(evicted: Option<seq<Byte>>, ready: Option<int>)

  /** The status code of the responses without data: a failed delete or close is reported like a
      successful one, and a list of files by its length. */
  function ReplyCode(s: Store, req: Request, status: int): int {
    match req
    case Delete(_) => OK
    case Close(_) => OK
    case ReadN(n) => if Announced(n, |s|) == 0 then FAIL else Announced(n, |s|)
    case _ => if status == OK then OK else FAIL
  }

  function VerdictOf(cfg: Config, s: Store, c: ClientId, req: Request): Verdict {
    if req.Write? || req.Append? then SectionVerdict(cfg, s, c, req)
    else if req.Read? then
      if ReadFile(s, req.path).Some? then SendFile(ReadFile(s, req.path).value) else Answer(FAIL)
    else Answer(ReplyCode(s, req, Outcome(cfg, s, c, req).status))
  }

  /** The victim of a write or append that finds no room, or `|s|`; the size of an append is not
      checked, so it is the one the machine finds. */
  function Victim(cfg: Config, s: Store, req: Request): (k: nat)
    requires IsSection(req)
    ensures k <= |s|
  {
    if req.Append? then MachineVictim(s, MachineFree(cfg, s), |req.data|) else FirstFit(s, Free(cfg, s), |req.data|)
  }

  predicate NeedsRoom(cfg: Config, s: Store, req: Request)
    requires IsSection(req)
  {
    if req.Append? then MachineNeedsRoom(cfg, s, |req.data|) else Free(cfg, s) < |req.data|
  }

  function SectionVerdict(cfg: Config, s: Store, c: ClientId, req: Request): (v: Verdict)
    requires IsSection(req)
    ensures req.Write? && v.Take? && v.evicted.Some? ==> v.evicted.value != []
  {
    var k := Victim(cfg, s, req);
    if req.Write? && |req.data| > cfg.maxMem then Answer(FAIL)
    else if !NeedsRoom(cfg, s, req) then Take(None, Readiness(s, req.path, c))
    else if k == |s| then Answer(FAIL)
    else Take(Some(s[k].bytes), Readiness(RemoveAt(s, k), req.path, c))
  }

  /** Without the lock there is no second phase; with it, storing the data fails on a closed file. */
  function Readiness(s: Store, p: Path, c: ClientId): (status: Option<int>)
    ensures status.Some? ==> status.value == OK || status.value == FAIL
  {
    if !HasLock(s, p, c) then None else if Get(s, p).open then Some(OK) else Some(FAIL)
  }

  /** The status the server sends in the end. */
  function FinalCode(v: Verdict): int {
    match v
    case Answer(code) => code
    case SendFile(_) => OK
    case Take(_, None) => FAIL
    case Take(_, Some(status)) => status
  }

  /** What the client's function returns for that status: the calls that share one send-and-read
      routine return success whatever the answer was. */
  function Told(req: Request, code: int): int {
    match req
    case Lock(_) => OK
    case Unlock(_) => OK
    case Close(_) => OK
    case Delete(_) => OK
    case ReadN(_) => if code == FAIL then FAIL else OK
    case _ => code
  }

  lemma SectionVerdictIsOutcome(cfg: Config, s: Store, c: ClientId, req: Request)
    requires IsSection(req)
    ensures FinalCode(SectionVerdict(cfg, s, c, req)) == Carried(cfg, s, c, req).status
  {
  }

  /** The file sent before a write or append is the one that leaves the table to make room, and one is
      sent exactly when one leaves. */
  lemma EvictedFileIsSent(cfg: Config, s: Store, c: ClientId, req: Request)
    requires IsSection(req)
    ensures var v, room := SectionVerdict(cfg, s, c, req), RoomMade(cfg, s, req);
            && (v.Take? <==> room.Some?)
            && (v.Take? ==> (v.evicted.None? <==> room == Some(s)))
            && (v.Take? && v.evicted.Some? ==>
                  exists k :: 0 <= k < |s| && room == Some(RemoveAt(s, k)) && s[k].bytes == v.evicted.value)
  {
    var k := Victim(cfg, s, req);
    assert k < |s| ==> |RemoveAt(s, k)| == |s| - 1;
  }

  /** The tables on which the client is told the truth, given the variable a read of nothing leaves
      unset. */
  predicate ToldRight(s: Store, c: ClientId, req: Request, unset: int) {
    match req
    case Lock(p) => Has(s, p) && Get(s, p).open
    case Unlock(p) => Has(s, p) && Get(s, p).open && (Get(s, p).owner == 0 || Get(s, p).owner == c)
    case Close(p) => Has(s, p) && (!Get(s, p).open || Get(s, p).owner == c)
    case Delete(p) => Has(s, p) && Get(s, p).open && Get(s, p).owner == c
    case ReadN(n) => Announced(n, |s|) > 0
    case Read(p) => !(Has(s, p) && Get(s, p).open && Get(s, p).bytes == [] && unset == -1)
    case Write(_, _) => !Unanswered(s, c, req, unset)
    case _ => true
  }

  lemma VerdictToldIff(cfg: Config, s: Store, c: ClientId, req: Request)
    requires Carried(cfg, s, c, req).status != WAIT
    ensures Told(req, FinalCode(VerdictOf(cfg, s, c, req))) == Carried(cfg, s, c, req).status
            <==> ToldRight(s, c, req, 0)
  {
    if IsSection(req) {
      SectionVerdictIsOutcome(cfg, s, c, req);
    }
  }

  /** The answer to a request for a list is the number of names in it, all if the request is negative or
      for more than there are; a list of none is reported as a failure. */
  lemma ListAnswer(cfg: Config, s: Store, c: ClientId, n: int)
    requires -0x8000_0000 <= n <= 0x7FFF_FFFF && |s| <= 0x7FFF_FFFF
    ensures var sent := if n < 0 || n > |s| then |s| else n;
            VerdictOf(cfg, s, c, ReadN(n)) == Answer(if sent == 0 then FAIL else sent)
  {
  }

  /** The status sent for a request about a single file. A delete and a close are reported as successes
      whatever came of them; a lock that waits has no answer yet. */
  lemma StatusSent(cfg: Config, s: Store, c: ClientId, p: Path, create: bool, lock: bool, k: int)
    requires Names(s, k, p) && |s| <= cfg.maxFile
    ensures VerdictOf(cfg, s, c, Delete(p)) == VerdictOf(cfg, s, c, Close(p)) == Answer(OK)
    ensures VerdictOf(cfg, s, c, Unlock(p)) == Answer(if s[k].open && Available(s[k], c) then OK else FAIL)
    ensures s[k].open && Available(s[k], c) ==> VerdictOf(cfg, s, c, Lock(p)) == Answer(OK)
    ensures !s[k].open ==> VerdictOf(cfg, s, c, Lock(p)) == Answer(FAIL)
    ensures !lock || !s[k].open || Available(s[k], c) ==>
              VerdictOf(cfg, s, c, Open(p, create, lock))
              == Answer(if !create && (lock ==> s[k].open) then OK else FAIL)
  {
    LockAnswers(s, p, c, k);
    OwnerAnswers(s, p, c, k);
    OpenAnswers(cfg, s, p, create, lock, c, k);
  }

  /** A delete of somebody else's file fails and is told as a success. */
  lemma FailedDeleteIsToldAsSuccess()
    ensures var s, req := [File("/a", [], 2, true)], Delete("/a");
            && Outcome(Config(10, 5), s, 1, req) == Result(s, FAIL)
            && Told(req, FinalCode(VerdictOf(Config(10, 5), s, 1, req))) == OK
  {
    var s := [File("/a", [], 2, true)];
    FindUnique(s, 0);
  }

  // ----- The two programs -----

  datatype Cell =
    | Ask(size: nat)
    | Response(code: int, size: nat)
    | Data(b: Byte)

  /** One exchange: the request, the verdict it meets, and the value of a variable that a read of
      zero bytes leaves unset. */
  datatype Deal = Deal(req: Request, v: Verdict, unset: int)

  datatype Client =
    | CStart
    | CAwait
    | CEvicted(left: nat, got: seq<Byte>)
    | CSecond(got: seq<Byte>)
    | CSendData(got: seq<Byte>)
    | CFinal(got: seq<Byte>)
    | CFile(left: nat, got: seq<Byte>)
    | CDone(code: int, got: seq<Byte>)
    | CStuck

  datatype Server =
    | SIdle
    | SVerdict
    | SFileData
    | SEvict
    | SSecond
    | SRecv(left: nat, got: seq<Byte>)
    | SStored(got: seq<Byte>)
    | SDone(stored: Option<seq<Byte>>)
    | SStuck

  datatype Sys = Sys(client: Client, server: Server, up: seq<Cell>, down: seq<Cell>)

  function Payload(bytes: seq<Byte>): (cells: seq<Cell>)
    ensures |cells| == |bytes|
    ensures forall i {:trigger cells[i]} :: 0 <= i < |bytes| ==> cells[i] == Data(bytes[i])
  {
    seq(|bytes|, i requires 0 <= i < |bytes| => Data(bytes[i]))
  }

  predicate AllData(cells: seq<Cell>) {
    forall i :: 0 <= i < |cells| ==> cells[i].Data?
  }

  function BytesOf(cells: seq<Cell>): (bytes: seq<Byte>)
    requires AllData(cells)
    ensures |bytes| == |cells|
    ensures forall i {:trigger bytes[i]} :: 0 <= i < |cells| ==> cells[i] == Data(bytes[i])
  {
    seq(|cells|, i requires 0 <= i < |cells| => cells[i].b)
  }

  function SizeOf(req: Request): nat {
    if IsSection(req) then |req.data| else 0
  }

  /** A client step; `k` is the number of bytes a read of file data returns. */
  function ClientStep(d: Deal, sys: Sys, k: nat): Sys {
    match sys.client
    case CStart => sys.(client := CAwait, up := sys.up + [Ask(SizeOf(d.req))])
    case CAwait =>
      if sys.down == [] || !sys.down[0].Response? then sys.(client := CStuck)
      else
        var r := sys.down[0];
        sys.(down := sys.down[1..], client :=
          if IsSection(d.req) then
            if r.code == 1 then
              if r.size > 0 then CEvicted(r.size, [])
              else if d.req.Write? && d.unset == -1 then CDone(FAIL, [])
              else CSecond([])
            else if r.code == -1 then CDone(FAIL, [])
            else CSendData([])
          else if d.req.Read? then
            if r.code == -1 then CDone(FAIL, [])
            else if r.size == 0 then CDone(if d.unset == -1 then FAIL else OK, [])
            else CFile(r.size, [])
          else CDone(Told(d.req, r.code), []))
    case CEvicted(left, got) =>
      if k > |sys.down| || k > left || !AllData(sys.down[..k]) then sys.(client := CStuck)
      else
        var more := got + BytesOf(sys.down[..k]);
        sys.(down := sys.down[k..], client := if k == left then CSecond(more) else CEvicted(left - k, more))
    case CFile(left, got) =>
      if k > |sys.down| || k > left || !AllData(sys.down[..k]) then sys.(client := CStuck)
      else
        var more := got + BytesOf(sys.down[..k]);
        sys.(down := sys.down[k..], client := if k == left then CDone(OK, more) else CFile(left - k, more))
    case CSecond(got) =>
      if sys.down == [] || !sys.down[0].Response? then sys.(client := CStuck)
      else sys.(down := sys.down[1..], client := if sys.down[0].code == -1 then CDone(FAIL, got) else CSendData(got))
    case CSendData(got) =>
      if !IsSection(d.req) then sys.(client := CStuck)
      else sys.(up := sys.up + Payload(d.req.data), client := CFinal(got))
    case CFinal(got) =>
      if sys.down == [] || !sys.down[0].Response? then sys.(client := CStuck)
      else sys.(down := sys.down[1..], client := CDone(sys.down[0].code, got))
    case _ => sys
  }

  /** A server step. A write of zero bytes depends on the unset result of reading nothing. */
  function ServerStep(d: Deal, sys: Sys, k: nat): Sys {
    match sys.server
    case SIdle =>
      if sys.up == [] || !sys.up[0].Ask? then sys.(server := SStuck)
      else sys.(up := sys.up[1..], server := SVerdict)
    case SVerdict =>
      (match d.v
       case Answer(code) => sys.(down := sys.down + [Response(code, 0)], server := SDone(None))
       case SendFile(b) => sys.(down := sys.down + [Response(OK, |b|)], server := SFileData)
       case Take(Some(b), _) => sys.(down := sys.down + [Response(1, |b|)], server := SEvict)
       case Take(None, _) => sys.(server := SSecond))
    case SFileData =>
      if !d.v.SendFile? then sys.(server := SStuck)
      else sys.(down := sys.down + Payload(d.v.bytes), server := SDone(None))
    case SEvict =>
      if !d.v.Take? || d.v.evicted.None? then sys.(server := SStuck)
      else sys.(down := sys.down + Payload(d.v.evicted.value), server := SSecond)
    case SSecond =>
      if !d.v.Take? then sys.(server := SStuck)
      else if d.v.ready == None then sys.(down := sys.down + [Response(FAIL, 0)], server := SDone(None))
      else sys.(down := sys.down + [Response(OK, 0)], server :=
        if SizeOf(d.req) > 0 then SRecv(SizeOf(d.req), [])
        else if d.req.Write? && d.unset == -1 then SDone(None)
        else SStored([]))
    case SRecv(left, got) =>
      if k > |sys.up| || k > left || !AllData(sys.up[..k]) then sys.(server := SStuck)
      else
        var more := got + BytesOf(sys.up[..k]);
        sys.(up := sys.up[k..], server := if k == left then SStored(more) else SRecv(left - k, more))
    case SStored(got) =>
      if !d.v.Take? || d.v.ready == None then sys.(server := SStuck)
      else sys.(down := sys.down + [Response(d.v.ready.value, 0)],
                server := SDone(if d.v.ready.value == OK then Some(got) else None))
    case _ => sys
  }

  /** A step can be taken: a read blocks on an empty stream, and a read of file data returns between
      one byte and all that are left. An append reads file data in one piece. */
  predicate ClientReady(d: Deal, sys: Sys, k: nat) {
    match sys.client
    case CStart => true
    case CSendData(_) => true
    case CEvicted(left, _) => 1 <= k <= left && k <= |sys.down| && (d.req.Append? ==> k == left)
    case CFile(left, _) => 1 <= k <= left && k <= |sys.down|
    case CDone(_, _) => false
    case CStuck => false
    case _ => sys.down != []
  }

  predicate ServerReady(d: Deal, sys: Sys, k: nat) {
    match sys.server
    case SIdle => sys.up != []
    case SRecv(left, _) => 1 <= k <= left && k <= |sys.up| && (d.req.Append? ==> k == left)
    case SDone(_) => false
    case SStuck => false
    case _ => true
  }
}
