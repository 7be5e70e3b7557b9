/** One incoming transfer: the lock sections of activeRecv
    (internal/filetransfer/filetransfer_windows_receive.go). */
module FileReceive {
  import opened Bytes
  import opened FileChunks

  /** The offered sizes, the open handles, the files on disk, the counters, and
      everything accepted so far. */
  datatype Transfer = Transfer(
    sizes: seq<U64>, total: U64,
    handles: seq<bool>, content: seq<seq<Byte>>, received: seq<U64>,
    accepted: seq<seq<Byte>>)

  function New(sizes: seq<U64>, total: U64): Transfer {
    var n := |sizes|;
    Transfer(sizes, total, seq(n, _ => true), seq(n, _ => []), seq(n, _ => 0), seq(n, _ => []))
  }

  predicate FileOk(size: U64, content: seq<Byte>, received: U64, accepted: seq<Byte>) {
    received == |accepted| && received <= size && accepted <= content && |content| <= size
  }

  predicate WellFormed(t: Transfer) {
    && |t.handles| == |t.content| == |t.received| == |t.accepted| == |t.sizes|
    && forall i :: 0 <= i < |t.sizes| ==> FileOk(t.sizes[i], t.content[i], t.received[i], t.accepted[i])
  }

  lemma NewWellFormed(sizes: seq<U64>, total: U64)
    ensures WellFormed(New(sizes, total))
  {
  }

  // A chunk arrives

  /** How the disk answers a write: all of it, or an error after some bytes. */
  datatype Disk = Writes | FailsAfter(stored: nat)

  datatype Verdict = Ignored | Invalid | WriteError | Stored

  function Judge(t: Transfer, c: Chunk, disk: Disk): Verdict
    requires WellFormed(t)
  {
    if c.file >= |t.handles| || !t.handles[c.file] then Ignored
    else if c.offset > t.sizes[c.file] || |c.data| > t.sizes[c.file] - c.offset || c.offset != t.received[c.file] then Invalid
    else if disk.FailsAfter? then WriteError
    else Stored
  }

  /** The file after d is written at off; what was beyond stays. */
  function Overlay(file: seq<Byte>, off: nat, d: seq<Byte>): seq<Byte>
    requires off <= |file|
  {
    file[..off] + d + (if off + |d| < |file| then file[off + |d|..] else [])
  }

  function Written(c: Chunk, disk: Disk): seq<Byte> {
    if disk.FailsAfter? && disk.stored < |c.data| then c.data[..disk.stored] else c.data
  }

  function AfterChunk(t: Transfer, c: Chunk, disk: Disk): Transfer
    requires WellFormed(t)
  {
    var v := Judge(t, c, disk);
    if v == Ignored || v == Invalid then t
    else
      var f := c.file;
      assert FileOk(t.sizes[f], t.content[f], t.received[f], t.accepted[f]);
      var w := t.(content := t.content[f := Overlay(t.content[f], c.offset, Written(c, disk))]);
      if v == WriteError then w
      else w.(received := t.received[f := t.received[f] + |c.data|], accepted := t.accepted[f := t.accepted[f] + c.data])
  }

  lemma OverlayKeeps(file: seq<Byte>, accepted: seq<Byte>, d: seq<Byte>)
    requires accepted <= file
    ensures accepted + d <= Overlay(file, |accepted|, d)
    ensures |Overlay(file, |accepted|, d)| == if |accepted| + |d| < |file| then |file| else |accepted| + |d|
    ensures d == [] ==> Overlay(file, |accepted|, d) == file
  {
  }

  lemma ChunkKeeps(t: Transfer, c: Chunk, disk: Disk)
    requires WellFormed(t)
    ensures WellFormed(AfterChunk(t, c, disk))
  {
    var v := Judge(t, c, disk);
    if v == WriteError || v == Stored {
      var f := c.file;
      assert FileOk(t.sizes[f], t.content[f], t.received[f], t.accepted[f]);
      OverlayKeeps(t.content[f], t.accepted[f], Written(c, disk));
      var u := AfterChunk(t, c, disk);
      assert FileOk(u.sizes[f], u.content[f], u.received[f], u.accepted[f]);
    }
  }

  /** A chunk that goes on where its file ends so far, and fits, is stored: file, count and
      accepted bytes grow by exactly its data, and no other file changes. */
  lemma GoodChunkStored(t: Transfer, c: Chunk)
    requires WellFormed(t) && c.file < |t.sizes| && t.handles[c.file]
    requires c.offset == t.received[c.file] && c.offset + |c.data| <= t.sizes[c.file]
    ensures Judge(t, c, Writes) == Stored
    ensures var u, f := AfterChunk(t, c, Writes), c.file;
            && u.received[f] == t.received[f] + |c.data| && u.accepted[f] == t.accepted[f] + c.data
            && (|t.content[f]| == t.received[f] ==> u.content[f] == t.content[f] + c.data)
            && u == t.(content := t.content[f := u.content[f]], received := t.received[f := u.received[f]],
                       accepted := t.accepted[f := u.accepted[f]])
  {
    assert FileOk(t.sizes[c.file], t.content[c.file], t.received[c.file], t.accepted[c.file]);
  }

  /** Any other chunk for an open file is refused and leaves the transfer as it is. */
  lemma BadChunkRefused(t: Transfer, c: Chunk, disk: Disk)
    requires WellFormed(t) && c.file < |t.sizes| && t.handles[c.file]
    requires c.offset != t.received[c.file] || c.offset + |c.data| > t.sizes[c.file]
    ensures Judge(t, c, disk) == Invalid && AfterChunk(t, c, disk) == t
  {
  }

  /** A failed write counts for nothing, whatever reached the disk. */
  lemma FailedWrite(t: Transfer, c: Chunk, n: nat)
    requires WellFormed(t) && c.file < |t.sizes| && t.handles[c.file]
    requires c.offset == t.received[c.file] && c.offset + |c.data| <= t.sizes[c.file]
    ensures Judge(t, c, FailsAfter(n)) == WriteError
    ensures var u := AfterChunk(t, c, FailsAfter(n)); u.received == t.received && u.accepted == t.accepted
  {
    assert FileOk(t.sizes[c.file], t.content[c.file], t.received[c.file], t.accepted[c.file]);
  }

  // Completion

  /** Go's uint64 sum. */
  function Sum64(sizes: seq<U64>): U64 {
    if sizes == [] then 0 else (Sum64(sizes[..|sizes| - 1]) + sizes[|sizes| - 1]) % TWO64
  }

  predicate Finished(t: Transfer) {
    t.received == t.sizes && Sum64(t.sizes) == t.total
  }

  /** Each file on disk is exactly the accepted data, of exactly the offered size. */
  predicate Intact(t: Transfer) {
    && |t.content| == |t.sizes| && t.content == t.accepted && Sum64(t.sizes) == t.total
    && forall i :: 0 <= i < |t.sizes| ==> |t.content[i]| == t.sizes[i]
  }

  lemma FinishedIsIntact(t: Transfer)
    requires WellFormed(t) && Finished(t)
    ensures Intact(t)
  {
    forall i | 0 <= i < |t.sizes|
      ensures t.content[i] == t.accepted[i] && |t.content[i]| == t.sizes[i]
    {
      assert FileOk(t.sizes[i], t.content[i], t.received[i], t.accepted[i]);
    }
  }

  /** Once finished, a chunk that is still on its way changes nothing, whatever it holds
      and however its write goes: nothing can be slipped in between the validation and
      the closing of the handles. */
  lemma FinishedIsFrozen(t: Transfer, c: Chunk, disk: Disk)
    requires WellFormed(t) && Finished(t)
    ensures AfterChunk(t, c, disk) == t
  {
    var v := Judge(t, c, disk);
    if v == WriteError || v == Stored {
      var f := c.file;
      assert FileOk(t.sizes[f], t.content[f], t.received[f], t.accepted[f]);
      assert c.data == [] && Written(c, disk) == [];
      OverlayKeeps(t.content[f], t.accepted[f], []);
      assert t.accepted[f] + [] == t.accepted[f];
      assert t.content[f := t.content[f]] == t.content && t.received[f := t.received[f]] == t.received
          && t.accepted[f := t.accepted[f]] == t.accepted;
    }
  }

  // The sender's bytes

  function FileAt(files: seq<seq<Byte>>, i: nat): seq<Byte> {
    if i < |files| then files[i] else []
  }

  /** What was accepted is where the sender's files begin. */
  predicate FromSender(files: seq<seq<Byte>>, t: Transfer) {
    forall i :: 0 <= i < |t.accepted| ==> t.accepted[i] <= FileAt(files, i)
  }

  lemma GenuineKeeps(files: seq<seq<Byte>>, t: Transfer, c: Chunk, disk: Disk)
    requires WellFormed(t) && FromSender(files, t) && Genuine(files, c)
    ensures FromSender(files, AfterChunk(t, c, disk))
  {
    if Judge(t, c, disk) == Stored {
      var f := c.file;
      assert FileOk(t.sizes[f], t.content[f], t.received[f], t.accepted[f]);
      assert t.accepted[f] <= FileAt(files, f);
      PrefixGrows(files[f], t.accepted[f], c.data);
    }
  }

  lemma PrefixGrows<T>(s: seq<T>, a: seq<T>, d: seq<T>)
    requires a <= s && |a| + |d| <= |s| && s[|a|..|a| + |d|] == d
    ensures a + d <= s
  {
    assert s == a + s[|a|..];
    assert s[|a|..|a| + |d|] + s[|a| + |d|..] == s[|a|..];
  }

  /** An intact transfer of genuine chunks holds the first `size` bytes of each file. */
  lemma IntactFromSender(files: seq<seq<Byte>>, t: Transfer, i: nat)
    requires Intact(t) && FromSender(files, t) && i < |t.sizes|
    ensures t.sizes[i] <= |FileAt(files, i)| && t.content[i] == FileAt(files, i)[..t.sizes[i]]
  {
    assert t.accepted[i] <= FileAt(files, i);
  }

  // Closing

  function Closed(t: Transfer): Transfer {
    t.(handles := seq(|t.handles|, _ => false))
  }

  /** Indices of the open handles, in order. */
  function OpenOnes(handles: seq<bool>): seq<nat> {
    if handles == [] then []
    else OpenOnes(handles[..|handles| - 1]) + (if handles[|handles| - 1] then [|handles| - 1] else [])
  }

  lemma ClosedIsFrozen(t: Transfer, c: Chunk, disk: Disk)
    requires WellFormed(t)
    ensures WellFormed(Closed(t)) && Judge(Closed(t), c, disk) == Ignored && AfterChunk(Closed(t), c, disk) == Closed(t)
  {
  }

  class ActiveRecv {
    const sizes: seq<U64>
    const total: U64
    const files: array<bool>
    const received: array<U64>
    var content: seq<seq<Byte>>
    ghost var accepted: seq<seq<Byte>>

    ghost function View(): Transfer
      reads this, files, received
    {
      Transfer(sizes, total, files[..], content, received[..], accepted)
    }

    constructor (sizes: seq<U64>, total: U64)
      ensures View() == New(sizes, total) && WellFormed(View())
      ensures fresh(files) && fresh(received)
    {
      var n := |sizes|;
      this.sizes, this.total := sizes, total;
      files := new bool[n](_ => true);
      received := new U64[n](_ => 0);
      content, accepted := seq(n, _ => []), seq(n, _ => []);
    }

    /** The part of handleChunk under the transfer's lock. */
    method Accept(c: Chunk, disk: Disk) returns (v: Verdict)
      requires WellFormed(View())
      modifies this, received
      ensures v == Judge(old(View()), c, disk) && View() == AfterChunk(old(View()), c, disk)
      ensures WellFormed(View())
    {
      ChunkKeeps(View(), c, disk);
      ghost var t := View();
      var f := c.file;
      if f >= files.Length || !files[f] {
        return Ignored;
      }
      assert FileOk(sizes[f], content[f], received[f], accepted[f]);
      var size := sizes[f];
      if c.offset > size || |c.data| > size - c.offset || c.offset != received[f] {
        return Invalid;
      }
      content := content[f := Overlay(content[f], c.offset, Written(c, disk))];
      if disk.FailsAfter? {
        return WriteError;
      }
      received[f] := received[f] + |c.data|;
      accepted := accepted[f := accepted[f] + c.data];
      return Stored;
    }

    /** Closes every open handle and returns which ones they were. */
    method CloseFiles() returns (paths: seq<nat>)
      modifies files
      ensures View() == Closed(old(View()))
      ensures paths == OpenOnes(old(files[..]))
    {
      ghost var was := files[..];
      paths := [];
      var i := 0;
      while i < files.Length
        invariant i <= files.Length && paths == OpenOnes(was[..i])
        invariant forall j :: 0 <= j < i ==> !files[j]
        invariant forall j :: i <= j < files.Length ==> files[j] == was[j]
      {
        assert was[..i + 1][..i] == was[..i];
        if files[i] {
          paths := paths + [i];
          files[i] := false;
        }
        i := i + 1;
      }
      assert was[..i] == was;
      assert files[..] == Closed(old(View())).handles;
    }

    /** Complete exactly when every file has its offered size and the sizes add up to the total. */
    method ValidateComplete() returns (ok: bool)
      requires WellFormed(View())
      ensures ok <==> Finished(View())
    {
      var sum: U64 := 0;
      var i := 0;
      while i < |sizes|
        invariant i <= |sizes| && sum == Sum64(sizes[..i])
        invariant received[..i] == sizes[..i]
      {
        if received[i] != sizes[i] {
          return false;
        }
        assert sizes[..i + 1][..i] == sizes[..i];
        sum := (sum + received[i]) % TWO64;
        i := i + 1;
      }
      assert sizes[..i] == sizes && received[..i] == received[..];
      return sum == total;
    }
  }
}
