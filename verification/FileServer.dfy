/** The file table in memory: file nodes linked in a queue, changed in place, and the statistics.
    Each operation is proved to do to the linked list what the function of the same name in module
    `Files` does to the table it represents. */
module FileServer {
  import opened Files
  import opened EventLog
  import opened LinkedQueue
  import opened MachineInts
  import opened FileList

  /** One stored file. The buffer is null until the first write and is replaced, never changed. */
  class FileNode {
    const pathname: Path
    var file: array?<Byte>
    var size: nat
    var clientId: int
    var isOpen: bool

    constructor (pathname: Path, clientId: int)
      ensures this.pathname == pathname && file == null && size == 0
      ensures this.clientId == clientId && isOpen
    {
      this.pathname := pathname;
      this.file := null;
      this.size := 0;
      this.clientId := clientId;
      this.isOpen := true;
    }

    ghost predicate Valid()
      reads this
    {
      size == if file == null then 0 else file.Length
    }

    ghost function Bytes(): seq<Byte>
      reads this, file
    {
      if file == null then [] else file[..]
    }

    ghost function View(): File
      reads this, file
    {
      File(pathname, Bytes(), clientId, isOpen)
    }
  }

  /** What a node holds is its file. */
  ghost predicate TiedAt(nodes: seq<FileNode>, files: Store, i: nat)
    requires i < |nodes| && i < |files|
    reads nodes, set f | f in nodes :: f.file
  {
    nodes[i].Valid() && files[i] == nodes[i].View()
  }

  /** The nodes are different objects, and what they hold is the table. */
  ghost predicate Tied(nodes: seq<FileNode>, files: Store)
    reads nodes, set f | f in nodes :: f.file
  {
    && |files| == |nodes|
    && (forall i :: 0 <= i < |nodes| ==> TiedAt(nodes, files, i))
    && AllDiffer(nodes)
  }

  /** The table without the file whose node is `f`. */
  ghost function Remaining(nodes: seq<FileNode>, files: Store, f: FileNode): Store {
    var k := IndexOf(nodes, f);
    if k < |files| then RemoveAt(files, k) else files
  }

  lemma TiedWithout(nodes: seq<FileNode>, files: Store, k: nat)
    requires Tied(nodes, files) && k < |files|
    ensures Tied(nodes[..k] + nodes[k + 1..], RemoveAt(files, k))
  {
    var n, f := nodes[..k] + nodes[k + 1..], RemoveAt(files, k);
    DifferWithout(nodes, k);
    forall i | 0 <= i < |f| ensures TiedAt(n, f, i) {
      assert TiedAt(nodes, files, if i < k then i else i + 1);
    }
  }

  lemma TiedDropped(nodes: seq<FileNode>, files: Store, f: FileNode)
    requires Tied(nodes, files)
    ensures Tied(Dropped(nodes, f), Remaining(nodes, files, f))
  {
    if IndexOf(nodes, f) < |files| {
      TiedWithout(nodes, files, IndexOf(nodes, f));
    }
  }

  function Finished(s: Store, c: ClientId, p: Path, data: seq<Byte>, unset: int): Result {
    if !HasLock(s, p, c) then Result(s, FAIL)
    else if data == [] && unset == -1 then Result(s, UNANSWERED)
    else WriteFile(s, p, data)
  }

  lemma ServedInParts(cfg: Config, s: Store, c: ClientId, p: Path, data: seq<Byte>, unset: int)
    requires WellFormed(cfg, s)
    ensures Served(cfg, s, c, Write(p, data), unset)
            == if |data| > cfg.maxMem || MakeRoom(cfg, s, |data|) == None then Result(s, FAIL)
               else Finished(MakeRoom(cfg, s, |data|).value, c, p, data, unset)
  {
  }

  /** A write of that size evicts a file. */
  predicate Replaces(cfg: Config, s: Store, need: nat) {
    need <= cfg.maxMem && need > Free(cfg, s) && MakeRoom(cfg, s, need).Some?
  }

  class FileServer {
    const cfg: Config
    const queue: Queue<FileNode>
    var maxNum: int
    var maxSize: int
    var replaced: int

    /** The table the linked list stands for. */
    ghost var files: Store

    ghost predicate Valid()
      reads this, queue, queue.nodes, queue.elems, set e | e in queue.elems :: e.file
    {
      queue.Valid() && Tied(queue.elems, files)
    }

    constructor (cfg: Config)
      ensures Valid() && files == [] && this.cfg == cfg
      ensures maxNum == maxSize == replaced == 0
    {
      this.cfg := cfg;
      queue := new Queue<FileNode>();
      maxNum, maxSize, replaced := 0, 0, 0;
      files := [];
    }

    /** The first file node of that name, or null. */
    method GetFileNode(p: Path) returns (f: FileNode?)
      requires Valid()
      ensures f == null <==> !Has(files, p)
      ensures f != null ==> f == queue.elems[Find(files, p)] && f.View() == Get(files, p) && f.Valid()
    {
      var node := queue.head;
      ghost var i := 0;
      while node.next != null
        invariant 0 <= i <= |files| && node == queue.nodes[i]
        invariant node.next == if i < |files| then queue.nodes[i + 1] else null
        invariant forall j :: 0 <= j < i ==> files[j].path != p
        decreases |files| - i
      {
        node := node.next;
        assert node == queue.nodes[i + 1] && node.data == Some(queue.elems[i]);
        assert TiedAt(queue.elems, files, i);
        assert i + 1 < |files| ==> node.next == queue.nodes[i + 1 + 1];
        if node.data.value.pathname == p {
          f := node.data.value;
          FindIs(files, p, i);
          return;
        }
        i := i + 1;
      }
      FindIs(files, p, i);
      f := null;
    }

    /** The sum of all sizes as the machine adds them up. */
    method GetStorageSize() returns (size: int)
      requires Valid()
      ensures size == MachineTotal(files)
    {
      size := 0;
      var node := queue.head;
      ghost var i := 0;
      while node.next != null
        invariant 0 <= i <= |files| && node == queue.nodes[i]
        invariant node.next == if i < |files| then queue.nodes[i + 1] else null
        invariant size == MachineTotalTo(files, i)
        decreases |files| - i
      {
        node := node.next;
        assert node == queue.nodes[i + 1] && node.data == Some(queue.elems[i]);
        assert TiedAt(queue.elems, files, i);
        assert i + 1 < |files| ==> node.next == queue.nodes[i + 1 + 1];
        size := AddSize(size, node.data.value.size);
        i := i + 1;
      }
    }

    method GetFreeSpace() returns (available: int)
      requires Valid()
      ensures available == MachineFree(cfg, files)
    {
      var size := GetStorageSize();
      available := ToInt(cfg.maxMem - size);
    }

    /** The first file, from the oldest on, whose removal makes room as the machine computes it;
        null when there is none. */
    method ExpelFile(need: nat) returns (f: FileNode?)
      requires Valid()
      ensures var k := MachineVictim(files, MachineFree(cfg, files), need);
              if k == |files| then f == null else f == queue.elems[k]
    {
      var free := GetFreeSpace();
      var node := queue.head;
      ghost var i := 0;
      while node.next != null
        invariant 0 <= i <= |files| && node == queue.nodes[i]
        invariant node.next == if i < |files| then queue.nodes[i + 1] else null
        invariant forall j :: 0 <= j < i ==> !MachineFits(free, |files[j].bytes|, need)
        decreases |files| - i
      {
        node := node.next;
        assert node == queue.nodes[i + 1] && node.data == Some(queue.elems[i]);
        assert TiedAt(queue.elems, files, i);
        assert i + 1 < |files| ==> node.next == queue.nodes[i + 1 + 1];
        if MachineFits(free, node.data.value.size, need) {
          f := node.data.value;
          assert MachineVictim(files, free, need) == i;
          return;
        }
        i := i + 1;
      }
      assert MachineVictim(files, free, need) == |files|;
      f := null;
    }

    /** Unlinking a node leaves the file nodes alone. */
    method Unlink(f: FileNode, ghost left: Store) returns (status: int)
      requires queue.Valid() && Tied(Dropped(queue.elems, f), left)
      modifies queue, queue.nodes
      ensures queue.Valid() && forall n :: n in queue.nodes ==> n in old(queue.nodes)
      ensures status == if f in old(queue.elems) then OK else FAIL
      ensures queue.elems == Dropped(old(queue.elems), f) && Tied(queue.elems, left)
    {
      ghost var kept := Dropped(queue.elems, f);
      status := queue.Remove(f);
      assert queue.elems == kept;
    }

    /** Unlinks one file node and nothing else; -1 when it is not linked. */
    method RemoveNode(f: FileNode) returns (status: int)
      requires Valid()
      modifies this`files, queue, queue.nodes
      ensures Valid() && forall n :: n in queue.nodes ==> n in old(queue.nodes)
      ensures status == if f in old(queue.elems) then OK else FAIL
      ensures queue.elems == Dropped(old(queue.elems), f)
      ensures files == Remaining(old(queue.elems), old(files), f)
    {
      ghost var left := Remaining(queue.elems, files, f);
      TiedDropped(queue.elems, files, f);
      status := Unlink(f, left);
      files := left;
    }

    /** A linked node is found at its place. */
    lemma LinkedAt(k: nat)
      requires Valid() && k < |files|
      ensures IndexOf(queue.elems, queue.elems[k]) == k
    {
      OtherPlaces(queue.elems, k);
    }

    // ----- Changes of one file node -----

    method SetOwner(f: FileNode, ghost k: nat, owner: int)
      requires Valid() && k < |files| && f == queue.elems[k]
      modifies this`files, f`clientId
      ensures Valid() && files == old(files)[k := old(files)[k].(owner := owner)]
    {
      OtherPlaces(queue.elems, k);
      assert TiedAt(queue.elems, files, k);
      f.clientId := owner;
      files := files[k := f.View()];
      forall i | 0 <= i < |files| ensures TiedAt(queue.elems, files, i) {
        assert i != k ==> old(TiedAt(queue.elems, files, i));
      }
    }

    method SetClosed(f: FileNode, ghost k: nat)
      requires Valid() && k < |files| && f == queue.elems[k]
      modifies this`files, f`isOpen
      ensures Valid() && files == old(files)[k := old(files)[k].(open := false)]
    {
      OtherPlaces(queue.elems, k);
      assert TiedAt(queue.elems, files, k);
      f.isOpen := false;
      files := files[k := f.View()];
      forall i | 0 <= i < |files| ensures TiedAt(queue.elems, files, i) {
        assert i != k ==> old(TiedAt(queue.elems, files, i));
      }
    }

    /** Gives the file a new buffer. */
    method SetBuffer(f: FileNode, ghost k: nat, copy: array<Byte>)
      requires Valid() && k < |files| && f == queue.elems[k]
      modifies this`files, f`file, f`size
      ensures Valid() && files == old(files)[k := old(files)[k].(bytes := copy[..])]
    {
      OtherPlaces(queue.elems, k);
      assert TiedAt(queue.elems, files, k);
      f.file := copy;
      f.size := copy.Length;
      files := files[k := f.View()];
      forall i | 0 <= i < |files| ensures TiedAt(queue.elems, files, i) {
        assert i != k ==> old(TiedAt(queue.elems, files, i));
      }
    }

    /** Links a new file at the end. */
    method Create(p: Path, owner: int)
      requires Valid()
      modifies this`files, queue, queue.tail
      ensures Valid() && files == old(files) + [File(p, [], owner, true)]
    {
      var node := new FileNode(p, owner);
      DifferWith(queue.elems, node);
      var n := queue.Push(node);
      files := files + [node.View()];
      forall i | 0 <= i < |files| ensures TiedAt(queue.elems, files, i) {
        assert i < |files| - 1 ==> old(TiedAt(queue.elems, files, i));
      }
    }

    // ----- Operations on files -----

    method HasFileLock(p: Path, c: ClientId) returns (has: bool)
      requires Valid()
      ensures has == HasLock(files, p, c)
    {
      var f := GetFileNode(p);
      has := f != null && f.clientId == c;
    }

    method LockVirtualFile(p: Path, c: ClientId) returns (status: int)
      requires Valid()
      modifies this`files, queue.elems
      ensures Valid() && Result(files, status) == LockFile(old(files), p, c)
    {
      var f := GetFileNode(p);
      if f == null || !f.isOpen {
        return FAIL;
      }
      if f.clientId == c {
        return OK;
      } else if f.clientId == 0 {
        SetOwner(f, Find(files, p), c);
        return OK;
      } else {
        return WAIT;
      }
    }

    method UnlockVirtualFile(p: Path, c: ClientId) returns (status: int)
      requires Valid()
      modifies this`files, queue.elems
      ensures Valid() && Result(files, status) == UnlockFile(old(files), p, c)
    {
      var f := GetFileNode(p);
      if f == null || !f.isOpen {
        return FAIL;
      }
      if f.clientId == c {
        SetOwner(f, Find(files, p), 0);
        return OK;
      } else if f.clientId == 0 {
        return OK;
      } else {
        return FAIL;
      }
    }

    method CloseVirtualFile(p: Path, c: ClientId) returns (status: int)
      requires Valid()
      modifies this`files, queue.elems
      ensures Valid() && Result(files, status) == CloseFile(old(files), p, c)
    {
      var f := GetFileNode(p);
      if f == null {
        return FAIL;
      }
      if !f.isOpen {
        return OK;
      }
      if f.clientId == c {
        SetClosed(f, Find(files, p));
        return OK;
      }
      return FAIL;
    }

    method DeleteVirtualFile(p: Path, c: ClientId) returns (status: int)
      requires Valid()
      modifies this`files, queue, queue.nodes
      ensures Valid() && Result(files, status) == DeleteFile(old(files), p, c)
    {
      var f := GetFileNode(p);
      if f == null || !f.isOpen || f.clientId != c {
        return FAIL;
      }
      LinkedAt(Find(files, p));
      status := RemoveNode(f);
    }

    /** Copies the file into a buffer of its own. */
    method ReadVirtualFile(p: Path) returns (status: int, buf: array?<Byte>)
      requires Valid()
      ensures status == OK <==> ReadFile(files, p).Some?
      ensures status == OK ==> buf != null && fresh(buf) && buf[..] == ReadFile(files, p).value
    {
      var f := GetFileNode(p);
      if f == null || !f.isOpen {
        return FAIL, null;
      }
      var copy := new Byte[f.size](_ => 0);
      if f.file != null {
        forall i | 0 <= i < f.size { copy[i] := f.file[i]; }
      }
      assert copy[..] == f.Bytes();
      return OK, copy;
    }

    /** Creates the file, or opens it when it is there; a new file raises the file-count mark. */
    method OpenVirtualFile(p: Path, create: bool, lock: bool, c: ClientId) returns (status: int)
      requires Valid()
      modifies this`files, this`maxNum, queue, queue.tail, queue.elems
      ensures Valid() && Result(files, status) == OpenFile(cfg, old(files), p, create, lock, c)
      ensures maxNum == if |files| > |old(files)| && |files| > old(maxNum) then |files| else old(maxNum)
    {
      var found := GetFileNode(p);
      if found != null && create {
        return FAIL;
      }
      if found == null && lock && !create {
        return FAIL;
      }
      if found != null {
        if lock {
          status := LockVirtualFile(p, c);
          return;
        }
        return OK;
      }
      if queue.len == cfg.maxFile {
        return FAIL;
      }
      Create(p, if lock then c else 0);
      if queue.len > maxNum {
        maxNum := queue.len;
      }
      return OK;
    }

    /** A new buffer with the old bytes, if any, and the given ones after them. */
    method Joined(file: array?<Byte>, buf: array<Byte>) returns (tmp: array<Byte>)
      ensures fresh(tmp) && tmp[..] == (if file == null then [] else file[..]) + buf[..]
    {
      var size := if file == null then 0 else file.Length;
      tmp := new Byte[size + buf.Length](_ => 0);
      if file != null {
        forall i | 0 <= i < size { tmp[i] := file[i]; }
      }
      forall i | 0 <= i < buf.Length { tmp[size + i] := buf[i]; }
    }

    method IncNumFileReplacement()
      requires Valid()
      modifies this`replaced
      ensures Valid() && replaced == old(replaced) + 1
    {
      replaced := replaced + 1;
    }

    /** Raises the storage mark to the present total. */
    method UpdateMaxSize()
      requires Valid()
      modifies this`maxSize
      ensures Valid() && maxSize == if MachineTotal(files) > old(maxSize) then MachineTotal(files) else old(maxSize)
    {
      var actual := GetStorageSize();
      if actual > maxSize {
        maxSize := actual;
      }
    }

    /** Replaces the contents; a closed file is left alone, statistics included. */
    method WriteVirtualFile(p: Path, buf: array<Byte>) returns (status: int)
      requires Valid()
      modifies this`files, this`maxSize, queue.elems
      ensures Valid() && Result(files, status) == WriteFile(old(files), p, buf[..])
      ensures maxSize == if Has(old(files), p) && !Get(old(files), p).open then old(maxSize)
                         else if MachineTotal(files) > old(maxSize) then MachineTotal(files) else old(maxSize)
    {
      var f := GetFileNode(p);
      if f == null {
        status := FAIL;
      } else {
        if !f.isOpen {
          return FAIL;
        }
        var copy := Joined(null, buf);
        assert copy[..] == buf[..];
        SetBuffer(f, Find(files, p), copy);
        status := OK;
      }
      UpdateMaxSize();
    }

    /** Adds to the contents: the old bytes, then the new ones from offset `size` on. */
    method AppendVirtualFile(p: Path, buf: array<Byte>) returns (status: int)
      requires Valid()
      modifies this`files, this`maxSize, queue.elems
      ensures Valid() && Result(files, status) == AppendFile(old(files), p, buf[..])
      ensures maxSize == if Has(old(files), p) && !Get(old(files), p).open then old(maxSize)
                         else if MachineTotal(files) > old(maxSize) then MachineTotal(files) else old(maxSize)
    {
      var f := GetFileNode(p);
      if f == null {
        status := FAIL;
      } else {
        if !f.isOpen {
          return FAIL;
        }
        var tmp := Joined(f.file, buf);
        SetBuffer(f, Find(files, p), tmp);
        status := OK;
      }
      UpdateMaxSize();
    }

    // ----- The critical sections of write and append -----

    /** Evicts the first file that makes room as the machine computes it. */
    method Evict(need: nat) returns (ok: bool)
      requires Valid()
      modifies this`files, queue, queue.nodes
      ensures Valid() && (forall e :: e in queue.elems ==> e in old(queue.elems))
      ensures var k := MachineVictim(old(files), MachineFree(cfg, old(files)), need);
              if k < |old(files)| then ok && files == RemoveAt(old(files), k) else !ok && files == old(files)
    {
      ghost var k := MachineVictim(files, MachineFree(cfg, files), need);
      var data := ExpelFile(need);
      if data == null {
        return false;
      }
      LinkedAt(k);
      var status := RemoveNode(data);
      return true;
    }

    /** Makes room for a request when the machine says that it does not fit. */
    method MakeSpace(need: nat) returns (ok: bool, evicted: bool)
      requires Valid()
      modifies this`files, queue, queue.nodes
      ensures Valid() && (forall e :: e in queue.elems ==> e in old(queue.elems))
      ensures MachineRoom(cfg, old(files), need) == if ok then Some(files) else None
      ensures !ok ==> files == old(files)
      ensures evicted <==> ok && MachineNeedsRoom(cfg, old(files), need)
    {
      var free := GetFreeSpace();
      if ToSize(free) >= need {
        return true, false;
      }
      ok := Evict(need);
      evicted := ok;
    }

    ghost function FileNodes(): set<FileNode>
      reads queue
    {
      set e | e in queue.elems
    }

    /** The storage mark after a request of that status: raised to the present total if bytes were
        stored. */
    ghost function MarkAfter(mark: int, status: int): int
      reads this`files
    {
      if status == OK && MachineTotal(files) > mark then MachineTotal(files) else mark
    }

    /** Stores the bytes for the lock holder, at the end or instead of the old ones. */
    method StoreBytes(p: Path, c: ClientId, buf: array<Byte>, append: bool) returns (status: int)
      requires Valid()
      modifies this`files, this`maxSize, FileNodes()
      ensures Valid()
      ensures Result(files, status) == if !HasLock(old(files), p, c) then Result(old(files), FAIL)
                                       else if append then AppendFile(old(files), p, buf[..])
                                       else WriteFile(old(files), p, buf[..])
      ensures maxSize == MarkAfter(old(maxSize), status)
    {
      var has := HasFileLock(p, c);
      if !has {
        status := FAIL;
      } else if append {
        status := AppendVirtualFile(p, buf);
      } else {
        status := WriteVirtualFile(p, buf);
      }
    }

    /** The second half of a write: lock test, and the bytes that have come. */
    method FinishWrite(p: Path, c: ClientId, buf: array<Byte>, unset: int) returns (status: int)
      requires Valid()
      modifies this`files, this`maxSize, FileNodes()
      ensures Valid() && Result(files, status) == Finished(old(files), c, p, buf[..], unset)
      ensures maxSize == MarkAfter(old(maxSize), status)
    {
      var has := HasFileLock(p, c);
      if has && buf.Length == 0 && unset == -1 {
        return UNANSWERED;
      }
      status := StoreBytes(p, c, buf, false);
    }

    /** What a write does to the table once its data has arrived; the replacement counter counts
        its eviction even when the write then fails. For the lock holder's write of no bytes `unset`
        is the result of reading nothing, and at -1 nothing is stored. */
    method ServeWrite(p: Path, c: ClientId, buf: array<Byte>, unset: int) returns (status: int)
      requires Valid() && WellFormed(cfg, files) && cfg.maxMem <= INT_MAX
      modifies this`files, this`maxSize, this`replaced, queue, queue.nodes, FileNodes()
      ensures Valid()
      ensures Result(files, status) == Served(cfg, old(files), c, Write(p, buf[..]), unset)
      ensures maxSize == MarkAfter(old(maxSize), status)
      ensures replaced == old(replaced) + if Replaces(cfg, old(files), buf.Length) then 1 else 0
    {
      ServedInParts(cfg, files, c, p, buf[..], unset);
      if buf.Length > cfg.maxMem {
        return FAIL;
      }
      RoomIsExact(cfg, files, buf.Length);
      FreeIsExact(cfg, files, buf.Length);
      var ok, evicted := MakeSpace(buf.Length);
      assert evicted <==> Replaces(cfg, old(files), buf.Length);
      if evicted {
        IncNumFileReplacement();
      }
      if !ok {
        return FAIL;
      }
      assert FileNodes() <= old(FileNodes());
      status := FinishWrite(p, c, buf, unset);
    }

    /** What an append does; it counts no replacement. Its size is not checked, so this is the
        machine's append, which `AppendIsExact` and `AppendKeepsLimitIff` compare with the
        specification. */
    method ServeAppend(p: Path, c: ClientId, buf: array<Byte>) returns (status: int)
      requires Valid()
      modifies this`files, this`maxSize, queue, queue.nodes, FileNodes()
      ensures Valid()
      ensures Result(files, status) == MachineAppend(cfg, old(files), c, p, buf[..])
      ensures maxSize == MarkAfter(old(maxSize), status)
    {
      var ok, evicted := MakeSpace(buf.Length);
      if !ok {
        return FAIL;
      }
      assert FileNodes() <= old(FileNodes());
      status := StoreBytes(p, c, buf, true);
    }

    // ----- The file list -----

    /** The first names, joined with commas, and how many there are. */
    method GetNFileList(n: int) returns (list: string, size: nat)
      requires Valid()
      ensures size == Announced(n, |files|) <= |files|
      ensures list == Join(Order(files)[..size])
    {
      size := if n == -1 || ToSize(n) > queue.len then queue.len else ToSize(n);
      assert size == Announced(n, |files|) <= |files|;
      list := "";
      var node := queue.head;
      var count := 0;
      while count < size && node.next != null
        invariant 0 <= count <= size <= |files| && node == queue.nodes[count]
        invariant node.next == if count < |files| then queue.nodes[count + 1] else null
        invariant list == Join(Order(files)[..count])
      {
        node := node.next;
        assert node == queue.nodes[count + 1] && node.data == Some(queue.elems[count]);
        assert TiedAt(queue.elems, files, count);
        assert count + 1 < |files| ==> node.next == queue.nodes[count + 1 + 1];
        JoinStep(Order(files), count);
        if count == 0 {
          list := node.data.value.pathname;
        } else {
          list := list + "," + node.data.value.pathname;
        }
        count := count + 1;
      }
    }
  }

  lemma JoinStep(names: seq<string>, k: nat)
    requires k < |names|
    ensures Join(names[..k + 1]) == if k == 0 then names[0] else Join(names[..k]) + "," + names[k]
  {
    var t := names[..k + 1];
    assert t[..|t| - 1] == names[..k];
  }
}
