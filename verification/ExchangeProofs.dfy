/** Why the two programs of `Exchange` fit: in every state they can reach, what has been sent and
    not yet read, followed by what the sender will still send, is what the reader will still read,
    in both directions. */
module ExchangeProofs {
  import opened Files
  import opened MachineInts
  import opened Operations
  import opened Exchange

  // ----- What each side will still send and read -----

  /** The verdict is one the server can reach for the request. */
  ghost predicate Fits(d: Deal) {
    match d.v
    case Answer(code) => IsSection(d.req) || d.req.Read? ==> code == FAIL
    case SendFile(_) => d.req.Read?
    case Take(evicted, ready) =>
      && IsSection(d.req)
      && (evicted.Some? && d.req.Write? ==> evicted.value != [])
      && (ready.Some? ==> ready.value == OK || ready.value == FAIL)
  }

  /** The server accepts the data but, having read zero bytes, takes the unset result for an error. */
  ghost predicate Hangs(d: Deal) {
    d.req.Write? && d.req.data == [] && d.unset == -1 && d.v.Take? && d.v.ready.Some?
  }

  ghost function LastResponse(d: Deal): seq<Cell>
    requires d.v.Take?
  {
    if d.v.ready.None? || Hangs(d) then [] else [Response(d.v.ready.value, 0)]
  }

  ghost function LockResponse(d: Deal): seq<Cell>
    requires d.v.Take?
  {
    [Response(if d.v.ready.None? then FAIL else OK, 0)] + LastResponse(d)
  }

  ghost function Expelled(d: Deal): seq<Byte> {
    if d.v.Take? && d.v.evicted.Some? then d.v.evicted.value else []
  }

  ghost function AllResponses(d: Deal): seq<Cell> {
    match d.v
    case Answer(code) => [Response(code, 0)]
    case SendFile(b) => [Response(OK, |b|)] + Payload(b)
    case Take(Some(b), _) => [Response(1, |b|)] + (Payload(b) + LockResponse(d))
    case Take(None, _) => LockResponse(d)
  }

  ghost function Contents(d: Deal): seq<Cell> {
    if d.v.Take? && d.v.ready.Some? && IsSection(d.req) then Payload(d.req.data) else []
  }

  /** All cells the server will still send. */
  ghost function WillAnswer(d: Deal, s: Server): seq<Cell> {
    match s
    case SIdle => AllResponses(d)
    case SVerdict => AllResponses(d)
    case SFileData => if d.v.SendFile? then Payload(d.v.bytes) else []
    case SEvict => if d.v.Take? then Payload(Expelled(d)) + LockResponse(d) else []
    case SSecond => if d.v.Take? then LockResponse(d) else []
    case SRecv(_, _) => if d.v.Take? then LastResponse(d) else []
    case SStored(_) => if d.v.Take? then LastResponse(d) else []
    case _ => []
  }

  /** All cells the client will still read. */
  ghost function Awaits(d: Deal, c: Client): seq<Cell> {
    match c
    case CStart => AllResponses(d)
    case CAwait => AllResponses(d)
    case CEvicted(left, _) =>
      if d.v.Take? && left <= |Expelled(d)| then Payload(Expelled(d)[|Expelled(d)| - left..]) + LockResponse(d) else []
    case CSecond(_) => if d.v.Take? then LockResponse(d) else []
    case CSendData(_) => if d.v.Take? then LastResponse(d) else []
    case CFinal(_) => if d.v.Take? then LastResponse(d) else []
    case CFile(left, _) =>
      if d.v.SendFile? && left <= |d.v.bytes| then Payload(d.v.bytes[|d.v.bytes| - left..]) else []
    case _ => []
  }

  /** All cells the client will still send. */
  ghost function WillAsk(d: Deal, c: Client): seq<Cell> {
    match c
    case CStart => [Ask(SizeOf(d.req))] + Contents(d)
    case CFinal(_) => []
    case CDone(_, _) => []
    case CStuck => []
    case _ => Contents(d)
  }

  /** All cells the server will still read. */
  ghost function Accepts(d: Deal, s: Server): seq<Cell> {
    match s
    case SIdle => [Ask(SizeOf(d.req))] + Contents(d)
    case SRecv(left, _) =>
      if IsSection(d.req) && left <= |d.req.data| then Payload(d.req.data[|d.req.data| - left..]) else []
    case SStored(_) => []
    case SDone(_) => []
    case SStuck => []
    case _ => Contents(d)
  }

  /** A read of an empty file fails when the unset variable happens to be -1. */
  function ReadCode(d: Deal): int
    requires d.v.SendFile?
  {
    if d.v.bytes == [] && d.unset == -1 then FAIL else OK
  }

  ghost predicate ClientOk(d: Deal, c: Client) {
    match c
    case CEvicted(left, got) => d.v.Take? && 0 < left <= |Expelled(d)| && got == Expelled(d)[..|Expelled(d)| - left]
    case CSecond(got) => d.v.Take? && got == Expelled(d)
    case CSendData(got) => d.v.Take? && d.v.ready.Some? && got == Expelled(d)
    case CFinal(got) => d.v.Take? && d.v.ready.Some? && got == Expelled(d)
    case CFile(left, got) => d.v.SendFile? && 0 < left <= |d.v.bytes| && got == d.v.bytes[..|d.v.bytes| - left]
    case CDone(code, got) =>
      && !Hangs(d)
      && if d.v.SendFile? then got == d.v.bytes && code == ReadCode(d)
      else code == Told(d.req, FinalCode(d.v)) && got == Expelled(d)
    case CStuck => false
    case _ => true
  }

  ghost predicate ServerOk(d: Deal, s: Server) {
    match s
    case SFileData => d.v.SendFile?
    case SEvict => d.v.Take? && d.v.evicted.Some?
    case SSecond => d.v.Take?
    case SRecv(left, got) =>
      && d.v.Take? && d.v.ready.Some? && IsSection(d.req)
      && 0 < left <= |d.req.data| && got == d.req.data[..|d.req.data| - left]
    case SStored(got) => d.v.Take? && d.v.ready.Some? && IsSection(d.req) && got == d.req.data && !Hangs(d)
    case SDone(stored) =>
      stored == if d.v.Take? && d.v.ready == Some(OK) && IsSection(d.req) && !Hangs(d) then Some(d.req.data) else None
    case SStuck => false
    case _ => true
  }

  /** The two sides fit together. */
  ghost predicate InStep(d: Deal, sys: Sys) {
    && Fits(d)
    && ClientOk(d, sys.client)
    && ServerOk(d, sys.server)
    && sys.up + WillAsk(d, sys.client) == Accepts(d, sys.server)
    && sys.down + WillAnswer(d, sys.server) == Awaits(d, sys.client)
  }

  // ----- Reading and sending -----

  lemma ReadOne(queue: seq<Cell>, later: seq<Cell>, due: seq<Cell>, first: Cell, rest: seq<Cell>)
    requires queue != [] && queue + later == due && due == [first] + rest
    ensures queue[0] == first && queue[1..] + later == rest
  {
    assert (queue + later)[0] == queue[0];
    assert (queue + later)[1..] == queue[1..] + later;
    assert due[1..] == rest;
  }

  lemma {:induction false} BytesOfPayload(bytes: seq<Byte>)
    ensures AllData(Payload(bytes)) && BytesOf(Payload(bytes)) == bytes
  {
  }

  lemma ReadMany(queue: seq<Cell>, later: seq<Cell>, bytes: seq<Byte>, rest: seq<Cell>, k: nat)
    requires k <= |queue| && k <= |bytes| && queue + later == Payload(bytes) + rest
    ensures AllData(queue[..k]) && BytesOf(queue[..k]) == bytes[..k]
    ensures queue[k..] + later == Payload(bytes[k..]) + rest
  {
    assert (queue + later)[..k] == queue[..k];
    assert (Payload(bytes) + rest)[..k] == Payload(bytes[..k]);
    BytesOfPayload(bytes[..k]);
    assert (queue + later)[k..] == queue[k..] + later;
    assert (Payload(bytes) + rest)[k..] == Payload(bytes[k..]) + rest;
  }

  /** A piece of `bytes`, of which `at` have been read before and `now` then: the buffer grows by what
      the stream loses. */
  lemma ReadPart(queue: seq<Cell>, later: seq<Cell>, bytes: seq<Byte>, rest: seq<Cell>, at: nat, k: nat, now: nat)
    requires k <= |queue| && at + k == now <= |bytes| && queue + later == Payload(bytes[at..]) + rest
    ensures AllData(queue[..k]) && bytes[..at] + BytesOf(queue[..k]) == bytes[..now]
    ensures queue[k..] + later == Payload(bytes[now..]) + rest
    ensures now == |bytes| ==> bytes[..now] == bytes && queue[k..] + later == rest
  {
    ReadMany(queue, later, bytes[at..], rest, k);
    assert bytes[at..][..k] == bytes[at..now];
    assert bytes[at..][k..] == bytes[now..];
  }

  /** The same, told by how much is left: a piece of `k` bytes leaves `left` of them. */
  lemma ReadPiece(queue: seq<Cell>, later: seq<Cell>, bytes: seq<Byte>, rest: seq<Cell>, got: seq<Byte>,
                  k: nat, left: nat)
    requires k <= |queue| && left + k <= |bytes| && got == bytes[..|bytes| - (left + k)]
    requires queue + later == Payload(bytes[|bytes| - (left + k)..]) + rest
    ensures AllData(queue[..k]) && got + BytesOf(queue[..k]) == bytes[..|bytes| - left]
    ensures queue[k..] + later == Payload(bytes[|bytes| - left..]) + rest
  {
    ReadPart(queue, later, bytes, rest, |bytes| - (left + k), k, |bytes| - left);
  }

  lemma ReadRest(queue: seq<Cell>, later: seq<Cell>, bytes: seq<Byte>, at: nat, k: nat, now: nat)
    requires k <= |queue| && at + k == now <= |bytes| && queue + later == Payload(bytes[at..])
    ensures AllData(queue[..k]) && bytes[..at] + BytesOf(queue[..k]) == bytes[..now]
    ensures queue[k..] + later == Payload(bytes[now..])
    ensures now == |bytes| ==> bytes[..now] == bytes && queue[k..] + later == []
  {
    assert Payload(bytes[at..]) + [] == Payload(bytes[at..]);
    ReadPart(queue, later, bytes, [], at, k, now);
    assert Payload(bytes[now..]) + [] == Payload(bytes[now..]);
  }

  lemma Sent(queue: seq<Cell>, now: seq<Cell>, later: seq<Cell>)
    ensures (queue + now) + later == queue + (now + later)
  {
  }

  // ----- Every step keeps the two sides in step -----

  lemma ClientAsks(d: Deal, sys: Sys)
    requires InStep(d, sys) && sys.client == CStart
    ensures InStep(d, ClientStep(d, sys, 0))
  {
    Sent(sys.up, [Ask(SizeOf(d.req))], Contents(d));
  }

  lemma ClientGetsVerdict(d: Deal, sys: Sys)
    requires InStep(d, sys) && sys.client == CAwait && sys.down != [] && !d.v.Take?
    ensures InStep(d, ClientStep(d, sys, 0))
  {
    var later := WillAnswer(d, sys.server);
    match d.v
    case Answer(code) => ReadOne(sys.down, later, AllResponses(d), Response(code, 0), []);
    case SendFile(b) =>
      ReadOne(sys.down, later, AllResponses(d), Response(OK, |b|), Payload(b));
      assert b[0..] == b;
  }

  lemma ClientGetsRoom(d: Deal, sys: Sys)
    requires InStep(d, sys) && sys.client == CAwait && sys.down != [] && d.v.Take?
    ensures InStep(d, ClientStep(d, sys, 0))
  {
    var later := WillAnswer(d, sys.server);
    match d.v
    case Take(Some(b), _) =>
      ReadOne(sys.down, later, AllResponses(d), Response(1, |b|), Payload(b) + LockResponse(d));
      assert b[0..] == b;
    case Take(None, None) => ReadOne(sys.down, later, AllResponses(d), Response(FAIL, 0), LastResponse(d));
    case Take(None, Some(_)) => ReadOne(sys.down, later, AllResponses(d), Response(OK, 0), LastResponse(d));
  }

  lemma ClientGetsAnswer(d: Deal, sys: Sys)
    requires InStep(d, sys) && sys.client == CAwait && sys.down != []
    ensures InStep(d, ClientStep(d, sys, 0))
  {
    if d.v.Take? {
      ClientGetsRoom(d, sys);
    } else {
      ClientGetsVerdict(d, sys);
    }
  }

  /** All but `left` bytes of the evicted file have been read. */
  lemma VictimInStep(d: Deal, sys: Sys, left: nat, got: seq<Byte>)
    requires Fits(d) && ServerOk(d, sys.server) && sys.up + Contents(d) == Accepts(d, sys.server) && d.v.Take?
    requires 0 < left <= |Expelled(d)| && got == Expelled(d)[..|Expelled(d)| - left]
    requires sys.down + WillAnswer(d, sys.server) == Awaits(d, CEvicted(left, got))
    ensures InStep(d, sys.(client := CEvicted(left, got)))
  {
  }

  lemma VictimAwaits(d: Deal, left: nat, got: seq<Byte>)
    requires d.v.Take? && left <= |Expelled(d)|
    ensures Awaits(d, CEvicted(left, got)) == Payload(Expelled(d)[|Expelled(d)| - left..]) + LockResponse(d)
  {
  }

  lemma VictimRead(d: Deal, sys: Sys, got: seq<Byte>)
    requires Fits(d) && ServerOk(d, sys.server) && sys.up + Contents(d) == Accepts(d, sys.server) && d.v.Take?
    requires got == Expelled(d) && sys.down + WillAnswer(d, sys.server) == LockResponse(d)
    ensures InStep(d, sys.(client := CSecond(got)))
  {
  }

  lemma VictimStep(d: Deal, sys: Sys, k: nat)
    requires sys.client.CEvicted? && k <= |sys.down| && k <= sys.client.left && AllData(sys.down[..k])
    ensures var more := sys.client.got + BytesOf(sys.down[..k]);
            ClientStep(d, sys, k)
            == sys.(down := sys.down[k..],
                    client := if k == sys.client.left then CSecond(more) else CEvicted(sys.client.left - k, more))
  {
  }

  lemma VictimSoFar(d: Deal, sys: Sys, left: nat)
    requires InStep(d, sys) && sys.client.CEvicted? && sys.client.left == left
    ensures d.v.Take? && left <= |Expelled(d)| && sys.client.got == Expelled(d)[..|Expelled(d)| - left]
    ensures sys.down + WillAnswer(d, sys.server) == Payload(Expelled(d)[|Expelled(d)| - left..]) + LockResponse(d)
  {
    assert sys.client == CEvicted(left, sys.client.got);
    VictimAwaits(d, left, sys.client.got);
  }

  lemma VictimLast(d: Deal, sys: Sys)
    requires InStep(d, sys) && sys.client.CEvicted? && sys.client.left <= |sys.down|
    ensures InStep(d, ClientStep(d, sys, sys.client.left))
  {
    var k := sys.client.left;
    VictimSoFar(d, sys, 0 + k);
    ReadPiece(sys.down, WillAnswer(d, sys.server), Expelled(d), LockResponse(d), sys.client.got, k, 0);
    VictimStep(d, sys, k);
    NothingLeft(Expelled(d), LockResponse(d));
    VictimRead(d, sys.(down := sys.down[k..]), sys.client.got + BytesOf(sys.down[..k]));
  }

  lemma NothingLeft(bytes: seq<Byte>, rest: seq<Cell>)
    ensures bytes[..|bytes| - 0] == bytes && Payload(bytes[|bytes| - 0..]) + rest == rest
  {
    assert bytes[|bytes| - 0..] == [] && Payload([]) == [];
  }

  lemma VictimGoesOn(d: Deal, sys: Sys, k: nat)
    requires InStep(d, sys) && sys.client.CEvicted? && k < sys.client.left && k <= |sys.down|
    ensures InStep(d, ClientStep(d, sys, k))
  {
    var left := sys.client.left - k;
    VictimSoFar(d, sys, left + k);
    ReadPiece(sys.down, WillAnswer(d, sys.server), Expelled(d), LockResponse(d), sys.client.got, k, left);
    var down, more := sys.down[k..], sys.client.got + BytesOf(sys.down[..k]);
    VictimAwaits(d, left, more);
    VictimInStep(d, sys.(down := down), left, more);
    VictimStep(d, sys, k);
  }

  lemma ClientReadsVictim(d: Deal, sys: Sys, k: nat)
    requires InStep(d, sys) && sys.client.CEvicted? && ClientReady(d, sys, k)
    ensures InStep(d, ClientStep(d, sys, k))
  {
    if k == sys.client.left {
      VictimLast(d, sys);
    } else {
      VictimGoesOn(d, sys, k);
    }
  }

  /** All but `left` bytes of the file have been read. */
  lemma FileInStep(d: Deal, sys: Sys, left: nat, got: seq<Byte>)
    requires Fits(d) && ServerOk(d, sys.server) && sys.up + Contents(d) == Accepts(d, sys.server) && d.v.SendFile?
    requires 0 < left <= |d.v.bytes| && got == d.v.bytes[..|d.v.bytes| - left]
    requires sys.down + WillAnswer(d, sys.server) == Payload(d.v.bytes[|d.v.bytes| - left..])
    ensures InStep(d, sys.(client := CFile(left, got)))
  {
  }

  lemma FileRead(d: Deal, sys: Sys, got: seq<Byte>)
    requires Fits(d) && ServerOk(d, sys.server) && sys.up + Contents(d) == Accepts(d, sys.server) && d.v.SendFile?
    requires got == d.v.bytes != [] && sys.down + WillAnswer(d, sys.server) == []
    ensures InStep(d, sys.(client := CDone(OK, got)))
  {
  }

  lemma FileStep(d: Deal, sys: Sys, k: nat)
    requires sys.client.CFile? && k <= |sys.down| && k <= sys.client.left && AllData(sys.down[..k])
    ensures var more := sys.client.got + BytesOf(sys.down[..k]);
            ClientStep(d, sys, k)
            == sys.(down := sys.down[k..],
                    client := if k == sys.client.left then CDone(OK, more) else CFile(sys.client.left - k, more))
  {
  }

  lemma ClientReadsFile(d: Deal, sys: Sys, k: nat)
    requires InStep(d, sys) && sys.client.CFile? && ClientReady(d, sys, k)
    ensures InStep(d, ClientStep(d, sys, k))
  {
    var size, left := |d.v.bytes|, sys.client.left;
    ReadRest(sys.down, WillAnswer(d, sys.server), d.v.bytes, size - left, k, size - (left - k));
    var more := sys.client.got + BytesOf(sys.down[..k]);
    FileStep(d, sys, k);
    if k == left {
      assert size - (left - k) == size;
      FileRead(d, sys.(down := sys.down[k..]), more);
    } else {
      FileInStep(d, sys.(down := sys.down[k..]), left - k, more);
    }
  }

  lemma ClientGetsReadiness(d: Deal, sys: Sys)
    requires InStep(d, sys) && sys.client.CSecond? && sys.down != []
    ensures InStep(d, ClientStep(d, sys, 0))
  {
    var code := if d.v.ready.None? then FAIL else OK;
    ReadOne(sys.down, WillAnswer(d, sys.server), LockResponse(d), Response(code, 0), LastResponse(d));
  }

  lemma ClientSendsData(d: Deal, sys: Sys)
    requires InStep(d, sys) && sys.client.CSendData?
    ensures InStep(d, ClientStep(d, sys, 0))
  {
    Sent(sys.up, Payload(d.req.data), []);
  }

  lemma ClientGetsStatus(d: Deal, sys: Sys)
    requires InStep(d, sys) && sys.client.CFinal? && sys.down != []
    ensures InStep(d, ClientStep(d, sys, 0))
  {
    assert sys.down + WillAnswer(d, sys.server) != [];
    ReadOne(sys.down, WillAnswer(d, sys.server), LastResponse(d), Response(d.v.ready.value, 0), []);
  }

  lemma ClientKeepsInStep(d: Deal, sys: Sys, k: nat)
    requires InStep(d, sys) && ClientReady(d, sys, k)
    ensures InStep(d, ClientStep(d, sys, k))
  {
    match sys.client
    case CStart => ClientAsks(d, sys);
    case CAwait => ClientGetsAnswer(d, sys);
    case CEvicted(_, _) => ClientReadsVictim(d, sys, k);
    case CFile(_, _) => ClientReadsFile(d, sys, k);
    case CSecond(_) => ClientGetsReadiness(d, sys);
    case CSendData(_) => ClientSendsData(d, sys);
    case CFinal(_) => ClientGetsStatus(d, sys);
  }

  lemma ServerReceives(d: Deal, sys: Sys)
    requires InStep(d, sys) && sys.server == SIdle && sys.up != []
    ensures InStep(d, ServerStep(d, sys, 0))
  {
    ReadOne(sys.up, WillAsk(d, sys.client), Accepts(d, SIdle), Ask(SizeOf(d.req)), Contents(d));
  }

  lemma ServerAnswers(d: Deal, sys: Sys)
    requires InStep(d, sys) && sys.server == SVerdict
    ensures InStep(d, ServerStep(d, sys, 0))
  {
    match d.v
    case Answer(code) => Sent(sys.down, [Response(code, 0)], []);
    case SendFile(b) => Sent(sys.down, [Response(OK, |b|)], Payload(b));
    case Take(Some(b), _) => Sent(sys.down, [Response(1, |b|)], Payload(b) + LockResponse(d));
    case Take(None, _) =>
  }

  lemma ServerSendsFile(d: Deal, sys: Sys)
    requires InStep(d, sys) && (sys.server == SFileData || sys.server == SEvict)
    ensures InStep(d, ServerStep(d, sys, 0))
  {
    if sys.server == SFileData {
      Sent(sys.down, Payload(d.v.bytes), []);
    } else {
      Sent(sys.down, Payload(d.v.evicted.value), LockResponse(d));
    }
  }

  lemma ServerChecksLock(d: Deal, sys: Sys)
    requires InStep(d, sys) && sys.server == SSecond
    ensures InStep(d, ServerStep(d, sys, 0))
  {
    Sent(sys.down, [Response(if d.v.ready.None? then FAIL else OK, 0)], LastResponse(d));
    assert d.req.data[0..] == d.req.data;
  }

  /** All but `left` bytes of the client's data have been received. */
  lemma ReceivingInStep(d: Deal, sys: Sys, up: seq<Cell>, left: nat, got: seq<Byte>)
    requires InStep(d, sys) && sys.server.SRecv? && 0 < left <= |d.req.data| && got == d.req.data[..|d.req.data| - left]
    requires up + WillAsk(d, sys.client) == Payload(d.req.data[|d.req.data| - left..])
    ensures InStep(d, sys.(up := up, server := SRecv(left, got)))
  {
  }

  lemma ReceivedInStep(d: Deal, sys: Sys, up: seq<Cell>, got: seq<Byte>)
    requires InStep(d, sys) && sys.server.SRecv? && got == d.req.data && up + WillAsk(d, sys.client) == []
    ensures InStep(d, sys.(up := up, server := SStored(got)))
  {
  }

  lemma ReceiveStep(d: Deal, sys: Sys, k: nat)
    requires sys.server.SRecv? && k <= |sys.up| && k <= sys.server.left && AllData(sys.up[..k])
    ensures var more := sys.server.got + BytesOf(sys.up[..k]);
            ServerStep(d, sys, k)
            == sys.(up := sys.up[k..],
                    server := if k == sys.server.left then SStored(more) else SRecv(sys.server.left - k, more))
  {
  }

  lemma ServerReads(d: Deal, sys: Sys, k: nat)
    requires InStep(d, sys) && sys.server.SRecv? && ServerReady(d, sys, k)
    ensures InStep(d, ServerStep(d, sys, k))
  {
    var size, left := |d.req.data|, sys.server.left;
    ReadRest(sys.up, WillAsk(d, sys.client), d.req.data, size - left, k, size - (left - k));
    var more := sys.server.got + BytesOf(sys.up[..k]);
    ReceiveStep(d, sys, k);
    if k == left {
      assert size - (left - k) == size;
      ReceivedInStep(d, sys, sys.up[k..], more);
    } else {
      ReceivingInStep(d, sys, sys.up[k..], left - k, more);
    }
  }

  lemma ServerReports(d: Deal, sys: Sys)
    requires InStep(d, sys) && sys.server.SStored?
    ensures InStep(d, ServerStep(d, sys, 0))
  {
    Sent(sys.down, [Response(d.v.ready.value, 0)], []);
  }

  lemma ServerKeepsInStep(d: Deal, sys: Sys, k: nat)
    requires InStep(d, sys) && ServerReady(d, sys, k)
    ensures InStep(d, ServerStep(d, sys, k))
  {
    match sys.server
    case SIdle => ServerReceives(d, sys);
    case SVerdict => ServerAnswers(d, sys);
    case SFileData => ServerSendsFile(d, sys);
    case SEvict => ServerSendsFile(d, sys);
    case SSecond => ServerChecksLock(d, sys);
    case SRecv(_, _) => ServerReads(d, sys, k);
    case SStored(_) => ServerReports(d, sys);
  }

  // ----- Whole exchanges -----

  datatype Move = ByClient(k: nat) | ByServer(k: nat)

  predicate MayMove(d: Deal, sys: Sys, m: Move) {
    match m
    case ByClient(k) => ClientReady(d, sys, k)
    case ByServer(k) => ServerReady(d, sys, k)
  }

  function Moved(d: Deal, sys: Sys, m: Move): Sys {
    match m
    case ByClient(k) => ClientStep(d, sys, k)
    case ByServer(k) => ServerStep(d, sys, k)
  }

  const START := Sys(CStart, SIdle, [], [])

  /** The moves, in any interleaving and with any sizes of pieces, lead from the start to `sys`. */
  ghost predicate Leads(d: Deal, moves: seq<Move>, sys: Sys)
    decreases |moves|
  {
    if moves == [] then sys == START
    else
      var init, last := moves[..|moves| - 1], moves[|moves| - 1];
      exists before :: Leads(d, init, before) && IsMove(d, before, last, sys)
  }

  ghost predicate IsMove(d: Deal, before: Sys, m: Move, sys: Sys) {
    MayMove(d, before, m) && sys == Moved(d, before, m)
  }

  function ClientWork(d: Deal, c: Client): nat {
    match c
    case CStart => 8 + Coming(d)
    case CAwait => 7 + Coming(d)
    case CEvicted(left, _) => 4 + left
    case CSecond(_) => 4
    case CSendData(_) => 3
    case CFinal(_) => 2
    case CFile(left, _) => 2 + left
    case _ => 0
  }

  function Coming(d: Deal): nat {
    match d.v
    case Answer(_) => 0
    case SendFile(b) => |b|
    case Take(Some(b), _) => |b|
    case Take(None, _) => 0
  }

  function ServerWork(d: Deal, s: Server): nat {
    match s
    case SIdle => 8 + SizeOf(d.req)
    case SVerdict => 7 + SizeOf(d.req)
    case SFileData => 1
    case SEvict => 6 + SizeOf(d.req)
    case SSecond => 5 + SizeOf(d.req)
    case SRecv(left, _) => 2 + left
    case SStored(_) => 2
    case _ => 0
  }

  function Work(d: Deal, sys: Sys): nat {
    ClientWork(d, sys.client) + ServerWork(d, sys.server)
  }

  lemma AnswerWork(d: Deal, sys: Sys)
    requires InStep(d, sys) && sys.client == CAwait && sys.down != []
    ensures ClientWork(d, ClientStep(d, sys, 0).client) < ClientWork(d, CAwait)
  {
    ClientGetsAnswer(d, sys);
    var after := ClientStep(d, sys, 0).client;
    assert ClientOk(d, after);
    assert after.CEvicted? ==> after.left <= Coming(d);
    assert after.CFile? ==> after.left <= Coming(d);
  }

  lemma OtherClientWork(d: Deal, sys: Sys, k: nat)
    requires ClientReady(d, sys, k) && sys.client != CAwait
    ensures ClientWork(d, ClientStep(d, sys, k).client) < ClientWork(d, sys.client)
  {
  }

  lemma ClientWorkShrinks(d: Deal, sys: Sys, k: nat)
    requires InStep(d, sys) && ClientReady(d, sys, k)
    ensures Work(d, ClientStep(d, sys, k)) < Work(d, sys)
  {
    if sys.client == CAwait {
      AnswerWork(d, sys);
    } else {
      OtherClientWork(d, sys, k);
    }
    assert ClientStep(d, sys, k).server == sys.server;
  }

  lemma ServerWorkShrinks(d: Deal, sys: Sys, k: nat)
    requires ServerReady(d, sys, k)
    ensures Work(d, ServerStep(d, sys, k)) < Work(d, sys)
  {
  }

  /** Every exchange stays in step and takes a bounded number of moves. */
  lemma {:induction false} ExchangesStayInStep(d: Deal, moves: seq<Move>, sys: Sys)
    requires Fits(d) && Leads(d, moves, sys)
    ensures InStep(d, sys)
    ensures |moves| + Work(d, sys) <= Work(d, START)
    decreases |moves|
  {
    if moves != [] {
      var m := moves[|moves| - 1];
      var before :| Leads(d, moves[..|moves| - 1], before) && IsMove(d, before, m, sys);
      ExchangesStayInStep(d, moves[..|moves| - 1], before);
      match m
      case ByClient(k) =>
        ClientKeepsInStep(d, before, k);
        ClientWorkShrinks(d, before, k);
      case ByServer(k) =>
        ServerKeepsInStep(d, before, k);
        ServerWorkShrinks(d, before, k);
    }
  }

  ghost predicate Resting(d: Deal, sys: Sys) {
    forall m :: !MayMove(d, sys, m)
  }

  /** Once the server only reads or is done, a client that still has to read before it sends finds
      all it waits for on the stream. */
  lemma ClientFindsItsData(d: Deal, sys: Sys)
    requires InStep(d, sys) && (sys.server.SRecv? || sys.server.SDone?)
    requires !sys.client.CFinal? && !sys.client.CDone?
    ensures !Resting(d, sys)
  {
    var k := if sys.client.CEvicted? || sys.client.CFile? then sys.client.left else 0;
    assert |sys.down| + |WillAnswer(d, sys.server)| == |Awaits(d, sys.client)|;
    assert MayMove(d, sys, ByClient(k));
  }

  lemma IdleServerFindsRequest(d: Deal, sys: Sys)
    requires InStep(d, sys) && sys.server == SIdle
    ensures !Resting(d, sys)
  {
    assert |sys.up| + |WillAsk(d, sys.client)| == |Accepts(d, sys.server)|;
    assert MayMove(d, sys, ByClient(0)) || MayMove(d, sys, ByServer(0));
  }

  lemma ReceivingServerFindsData(d: Deal, sys: Sys)
    requires InStep(d, sys) && sys.server.SRecv? && (sys.client.CFinal? || sys.client.CDone?)
    ensures !Resting(d, sys)
  {
    assert |sys.up| + |WillAsk(d, sys.client)| == |Accepts(d, sys.server)|;
    assert MayMove(d, sys, ByServer(sys.server.left));
  }

  /** The moves lead to a state in which neither side can go on. */
  ghost predicate EndsIn(d: Deal, moves: seq<Move>, sys: Sys) {
    Leads(d, moves, sys) && Resting(d, sys)
  }

  lemma RestingServer(d: Deal, sys: Sys)
    requires InStep(d, sys) && Resting(d, sys)
    ensures sys.server.SDone?
  {
    if sys.server == SIdle {
      IdleServerFindsRequest(d, sys);
    } else if sys.server.SRecv? {
      if sys.client.CFinal? || sys.client.CDone? {
        ReceivingServerFindsData(d, sys);
      } else {
        ClientFindsItsData(d, sys);
      }
    } else {
      assert !MayMove(d, sys, ByServer(0));
    }
  }

  /** The two never both wait: an exchange comes to rest only when both sides are through and both
      streams are empty, or in the one case in which the server, having read a write's zero bytes,
      mistakes an unset variable for an error and sends no status. */
  lemma RestIsTheEnd(d: Deal, sys: Sys)
    requires InStep(d, sys) && Resting(d, sys)
    ensures sys.up == [] && sys.down == [] && sys.server.SDone?
    ensures if Hangs(d) then sys.client.CFinal? else sys.client.CDone?
  {
    RestingServer(d, sys);
    if !sys.client.CFinal? && !sys.client.CDone? {
      ClientFindsItsData(d, sys);
    }
    assert |sys.up| + |WillAsk(d, sys.client)| == |Accepts(d, sys.server)|;
    assert |sys.down| + |WillAnswer(d, sys.server)| == |Awaits(d, sys.client)|;
    assert !MayMove(d, sys, ByClient(0));
  }

  /** Client and server agree on every exchange, whatever the interleaving and the pieces: it comes
      to rest after a bounded number of moves; unless it hangs, the client then returns what the
      server's verdict tells it, holds the evicted file or the file it asked for, the server has
      stored exactly the client's bytes if it said so, and nothing is left on either stream. */
  lemma ExchangeAgrees(d: Deal, moves: seq<Move>, sys: Sys)
    requires Fits(d) && EndsIn(d, moves, sys)
    ensures |moves| <= Work(d, START)
    ensures sys.up == [] && sys.down == [] && sys.server.SDone?
    ensures sys.client.CDone? <==> !Hangs(d)
    ensures sys.client.CDone? && !d.v.SendFile? ==>
              sys.client.code == Told(d.req, FinalCode(d.v)) && sys.client.got == Expelled(d)
    ensures d.v.SendFile? ==> sys.client.CDone? && sys.client.code == ReadCode(d) && sys.client.got == d.v.bytes
    ensures sys.client.CDone? && IsSection(d.req) ==>
              sys.server.stored == if FinalCode(d.v) == OK then Some(d.req.data) else None
  {
    ExchangesStayInStep(d, moves, sys);
    RestIsTheEnd(d, sys);
  }

  lemma VerdictFits(cfg: Config, s: Store, c: ClientId, req: Request, unset: int)
    ensures Fits(Deal(req, VerdictOf(cfg, s, c, req), unset))
  {
  }

  /** Which exchanges hang, in terms of the table: a lock holder's write of an empty file that finds
      the unset variable at -1. */
  lemma HangsExactly(cfg: Config, s: Store, c: ClientId, req: Request, unset: int)
    requires WellFormed(cfg, s)
    ensures Hangs(Deal(req, VerdictOf(cfg, s, c, req), unset)) <==> Unanswered(s, c, req, unset)
  {
  }

  /** What the client is told is what happened to the table, if and only if the request is not one of
      these: a lock, unlock or delete of a file that is missing, closed or in the way of its owner; a
      close of one that is missing or open and not the client's; a request for a list of no files; with
      the unset variable at -1, the read of an empty file and the holder's write of no bytes. */
  lemma ToldIsOutcomeIff(cfg: Config, s: Store, c: ClientId, req: Request, unset: int, moves: seq<Move>, sys: Sys)
    requires WellFormed(cfg, s) && Carried(cfg, s, c, req).status != WAIT
    requires EndsIn(Deal(req, VerdictOf(cfg, s, c, req), unset), moves, sys)
    ensures sys.client.CDone? && sys.client.code == Carried(cfg, s, c, req).status <==> ToldRight(s, c, req, unset)
  {
    VerdictFits(cfg, s, c, req, unset);
    ExchangeAgrees(Deal(req, VerdictOf(cfg, s, c, req), unset), moves, sys);
    VerdictToldIff(cfg, s, c, req);
    HangsExactly(cfg, s, c, req, unset);
  }

  /** The exchange against the table: a write, or an append of any size, comes to an end unless it is the
      unanswered write; it then returns the status of the section as the code carries it out, and the
      server has stored the client's bytes exactly when that status is success. For a sound size this is
      what the server's threads answer (`Served`). */
  lemma SectionExchangeMatchesTable(cfg: Config, s: Store, c: ClientId, req: Request, unset: int,
                                    moves: seq<Move>, sys: Sys)
    requires WellFormed(cfg, s) && IsSection(req)
    requires EndsIn(Deal(req, VerdictOf(cfg, s, c, req), unset), moves, sys)
    ensures sys.client.CDone? <==> !Unanswered(s, c, req, unset)
    ensures var r := Carried(cfg, s, c, req);
            && (sys.client.CDone? ==> sys.client.code == r.status)
            && sys.server == SDone(if sys.client.CDone? && r.status == OK then Some(req.data) else None)
            && sys.up == [] && sys.down == []
    ensures cfg.maxMem <= INT_MAX && SoundRequest(cfg, req) ==>
              var r := Served(cfg, s, c, req, unset);
              if sys.client.CDone? then sys.client.code == r.status else r.status == UNANSWERED
  {
    var d := Deal(req, VerdictOf(cfg, s, c, req), unset);
    if cfg.maxMem <= INT_MAX && SoundRequest(cfg, req) {
      CarriedAsSpecified(cfg, s, c, req);
    }
    VerdictFits(cfg, s, c, req, unset);
    ExchangesStayInStep(d, moves, sys);
    RestIsTheEnd(d, sys);
    HangsExactly(cfg, s, c, req, unset);
    SectionVerdictIsOutcome(cfg, s, c, req);
  }

  /** A read always comes to an end; the client holds exactly the bytes of the open file of that name,
      whoever owns it, and is told of a failure if there is none, or if it is empty and the unset variable
      is -1. */
  lemma ReadExchangeMatchesTable(cfg: Config, s: Store, c: ClientId, p: Path, unset: int, moves: seq<Move>, sys: Sys,
                                 k: int)
    requires EndsIn(Deal(Read(p), VerdictOf(cfg, s, c, Read(p)), unset), moves, sys)
    ensures sys.client.CDone? && sys.up == [] && sys.down == []
    ensures Names(s, k, p) && s[k].open ==>
              sys.client == CDone(if s[k].bytes == [] && unset == -1 then FAIL else OK, s[k].bytes)
    ensures Absent(s, p) || (Names(s, k, p) && !s[k].open) ==> sys.client == CDone(FAIL, [])
  {
    var d := Deal(Read(p), VerdictOf(cfg, s, c, Read(p)), unset);
    VerdictFits(cfg, s, c, Read(p), unset);
    ExchangeAgrees(d, moves, sys);
    ReadAnswers(s, p, k);
  }

  lemma OneMore(d: Deal, moves: seq<Move>, before: Sys, m: Move, sys: Sys)
    requires Leads(d, moves, before) && IsMove(d, before, m, sys)
    ensures Leads(d, moves + [m], sys)
  {
    assert (moves + [m])[..|moves|] == moves;
  }

  lemma TwoMore(d: Deal, moves: seq<Move>, before: Sys, m: Move, between: Sys, n: Move, sys: Sys)
    requires Leads(d, moves, before) && IsMove(d, before, m, between) && IsMove(d, between, n, sys)
    ensures Leads(d, moves + [m, n], sys)
  {
    OneMore(d, moves, before, m, between);
    OneMore(d, moves + [m], between, n, sys);
    assert moves + [m] + [n] == moves + [m, n];
  }

  lemma EmptyReadEnds(d: Deal, moves: seq<Move>)
    requires d.req.Read? && d == Deal(Read(d.req.path), SendFile([]), -1)
    requires Leads(d, moves, Sys(CAwait, SVerdict, [], []))
    ensures EndsIn(d, moves + [ByServer(0), ByServer(0)] + [ByClient(0)], Sys(CDone(FAIL, []), SDone(None), [], []))
  {
    var s2, s4 := Sys(CAwait, SVerdict, [], []), Sys(CAwait, SDone(None), [], [Response(OK, 0)]);
    TwoMore(d, moves, s2, ByServer(0), Sys(CAwait, SFileData, [], [Response(OK, 0)]), ByServer(0), s4);
    OneMore(d, moves + [ByServer(0), ByServer(0)], s4, ByClient(0), Sys(CDone(FAIL, []), SDone(None), [], []));
  }

  /** The read of an empty file that finds the unset variable at -1 succeeds and is told as a failure. */
  lemma EmptyReadIsToldAsFailure(p: Path)
    ensures var s := [File(p, [], 0, true)];
            var d := Deal(Read(p), VerdictOf(Config(10, 5), s, 1, Read(p)), -1);
            var moves := [ByClient(0), ByServer(0)] + [ByServer(0), ByServer(0)] + [ByClient(0)];
            && Outcome(Config(10, 5), s, 1, Read(p)).status == OK
            && EndsIn(d, moves, Sys(CDone(FAIL, []), SDone(None), [], []))
  {
    FindUnique([File(p, [], 0, true)], 0);
    var d, asked := Deal(Read(p), SendFile([]), -1), [ByClient(0), ByServer(0)];
    TwoMore(d, [], START, ByClient(0), Sys(CAwait, SIdle, [Ask(0)], []), ByServer(0), Sys(CAwait, SVerdict, [], []));
    assert [] + asked == asked;
    EmptyReadEnds(d, asked);
  }

  /** The owner of an empty file writes it with no bytes. */
  lemma EmptyWriteVerdict(p: Path)
    ensures VerdictOf(Config(10, 5), [File(p, [], 1, true)], 1, Write(p, [])) == Take(None, Some(OK))
  {
    var s := [File(p, [], 1, true)];
    FindUnique(s, 0);
    assert Total(s) == TotalTo(s, 0) + 0;
  }

  const HUNG := Sys(CFinal([]), SDone(None), [], [])

  lemma EmptyWriteServed(d: Deal, moves: seq<Move>)
    requires d.req.Write? && d == Deal(Write(d.req.path, []), Take(None, Some(OK)), -1)
    requires Leads(d, moves, Sys(CAwait, SVerdict, [], []))
    ensures Leads(d, moves + [ByServer(0), ByServer(0)], Sys(CAwait, SDone(None), [], [Response(OK, 0)]))
  {
    var s3, s4 := Sys(CAwait, SSecond, [], []), Sys(CAwait, SDone(None), [], [Response(OK, 0)]);
    assert IsMove(d, s3, ByServer(0), s4);
    TwoMore(d, moves, Sys(CAwait, SVerdict, [], []), ByServer(0), s3, ByServer(0), s4);
  }

  lemma EmptyWriteSent(d: Deal, moves: seq<Move>)
    requires d.req.Write? && d == Deal(Write(d.req.path, []), Take(None, Some(OK)), -1)
    requires Leads(d, moves, Sys(CAwait, SDone(None), [], [Response(OK, 0)]))
    ensures Leads(d, moves + [ByClient(0), ByClient(0)], HUNG)
  {
    var s5 := Sys(CSendData([]), SDone(None), [], []);
    assert IsMove(d, s5, ByClient(0), HUNG);
    TwoMore(d, moves, Sys(CAwait, SDone(None), [], [Response(OK, 0)]), ByClient(0), s5, ByClient(0), HUNG);
  }

  /** The exchange that never ends, move by move: the client sends its request and, told to go ahead,
      its zero bytes, and waits; the server has gone back to its next request. */
  lemma EmptyWriteHangs(p: Path)
    ensures var d := Deal(Write(p, []), Take(None, Some(OK)), -1);
            var moves := [ByClient(0), ByServer(0)] + [ByServer(0), ByServer(0)] + [ByClient(0), ByClient(0)];
            Fits(d) && EndsIn(d, moves, HUNG)
  {
    var d := Deal(Write(p, []), Take(None, Some(OK)), -1);
    var asked := [ByClient(0), ByServer(0)];
    TwoMore(d, [], START, ByClient(0), Sys(CAwait, SIdle, [Ask(0)], []), ByServer(0), Sys(CAwait, SVerdict, [], []));
    assert [] + asked == asked;
    EmptyWriteServed(d, asked);
    EmptyWriteSent(d, asked + [ByServer(0), ByServer(0)]);
  }
}
