/** streamFiles: the sender's chunking loop (internal/filetransfer/filetransfer_windows_send.go).
    What each read returns, when the peer answers and when it cancels are inputs. */
module FileSend {
  import opened Bytes
  import opened FileChunks
  import opened Seqs

  datatype Answer = Accepted | CanceledEarly | TimedOut
  datatype ReadErr = NoErr | Eof | Failed
  datatype Read = Read(data: seq<Byte>, err: ReadErr)

  /** A file to send: it cannot be opened, or its reads give these results and then end of file. */
  datatype Source = CannotOpen | Reads(results: seq<Read>)

  datatype End =
    | NotStarted  // no acceptance: nothing sent
    | Stopped     // cancelled by the peer or by this side
    | Broken      // an open or a read failed: Cancel sent
    | Complete    // every file read to its end: Done sent

  predicate Fits(s: Source) {
    s.Reads? ==> |Contents(s.results)| < TWO64 && forall i :: 0 <= i < |s.results| ==> |s.results[i].data| <= CHUNK_SIZE
  }

  /** What can be read before the first error, the data that comes with it included. */
  function Contents(results: seq<Read>): seq<Byte> {
    if results == [] then []
    else if results[0].err != NoErr then results[0].data
    else results[0].data + Contents(results[1..])
  }

  function BytesOf(s: Source): seq<Byte> {
    if s.CannotOpen? then [] else Contents(s.results)
  }

  predicate ReadsFully(s: Source) {
    s.Reads? && EndsWell(s.results)
  }

  predicate EndsWell(results: seq<Read>) {
    results == [] || results[0].err == Eof || (results[0].err == NoErr && EndsWell(results[1..]))
  }

  /** The data of these reads, in order. */
  function DataOf(results: seq<Read>): seq<seq<Byte>> {
    seq(|results|, i requires 0 <= i < |results| => results[i].data)
  }

  /** With k reads before the first error, if there is one, a file is the data of these k and
      what came with the error, and it was read to its end exactly if that error is the end
      of file or there is none. */
  lemma {:induction false} FirstError(results: seq<Read>, k: nat)
    requires k <= |results| && forall i :: 0 <= i < k ==> results[i].err == NoErr
    requires k < |results| ==> results[k].err != NoErr
    ensures Contents(results) == Flatten(DataOf(results[..k])) + (if k < |results| then results[k].data else [])
    ensures EndsWell(results) <==> k == |results| || results[k].err == Eof
  {
    if k == 0 {
      FlattenEmpty<Byte>();
      assert DataOf(results[..0]) == [];
    } else {
      FirstError(results[1..], k - 1);
      var ds := DataOf(results[..k]);
      assert ds[1..] == DataOf(results[1..][..k - 1]);
      FlattenHead(ds);
      Rebracket(results[0].data, Flatten(ds[1..]), if k < |results| then results[k].data else []);
    }
  }

  /** One file: read until an error, sending each read as a chunk at the running offset. */
  method StreamFile(id: U32, file: U32, results: seq<Read>, canceled: nat -> bool, checks: nat)
    returns (group: seq<Chunk>, end: End, checked: nat)
    requires Fits(Reads(results))
    ensures Contiguous(id, file, group) && Payload(group) <= Contents(results)
    ensures end == Complete || end == Stopped || end == Broken
    ensures end == Complete ==> EndsWell(results)
    ensures end == Broken ==> !EndsWell(results)
    ensures end != Stopped ==> Payload(group) == Contents(results)
    ensures checks < checked && forall k :: checks <= k < checked - 1 ==> !canceled(k)
    ensures end == Stopped <==> canceled(checked - 1)
  {
    hide Contents;
    hide EndsWell;
    hide Payload;
    hide Contiguous;
    group := [];
    NoChunks(id, file);
    checked := checks;
    var offset: U64 := 0;
    ghost var rest := results;
    var n := 0;
    while true
      invariant n <= |results| && rest == results[n..]
      invariant Contiguous(id, file, group) && offset == |Payload(group)|
      invariant Payload(group) + Contents(rest) == Contents(results)
      invariant EndsWell(results) == EndsWell(rest)
      invariant checks <= checked && forall k :: checks <= k < checked ==> !canceled(k)
      decreases |results| - n
    {
      checked := checked + 1;
      if canceled(checked - 1) {
        return group, Stopped, checked;
      }
      var r := if n < |results| then results[n] else Read([], Eof);
      OneRead(Payload(group), rest, r, Contents(results));
      if r.data != [] {
        var chunk := Chunk(id, file, offset, r.data);
        ContiguousSnoc(id, file, group, chunk);
        PayloadSnoc(group, chunk);
        group := group + [chunk];
        offset := offset + |r.data|;
      }
      if r.err != NoErr {
        end := if r.err == Eof then Complete else Broken;
        return group, end, checked;
      }
      n := n + 1;
      rest := results[n..];
    }
  }

  lemma NoChunks(id: U32, file: U32)
    ensures Contiguous(id, file, []) && Payload([]) == []
  {
  }

  function Tail(rest: seq<Read>): seq<Read> {
    if rest == [] then [] else rest[1..]
  }

  /** What one read adds to what has been sent. */
  lemma OneRead(sent: seq<Byte>, rest: seq<Read>, r: Read, all: seq<Byte>)
    requires r == (if rest == [] then Read([], Eof) else rest[0])
    requires sent + Contents(rest) == all
    ensures |sent| + |r.data| <= |all|
    ensures r.err == NoErr ==> (sent + r.data) + Contents(Tail(rest)) == all && EndsWell(rest) == EndsWell(Tail(rest))
    ensures r.err != NoErr ==> sent + r.data == all && EndsWell(rest) == (r.err == Eof)
  {
  }

  predicate AllFit(sources: seq<Source>) {
    |sources| <= TWO32 && forall i :: 0 <= i < |sources| ==> Fits(sources[i])
  }

  /** Group i is file i, from its start, without gaps; whole when `whole`. */
  predicate SentFile(id: U32, sources: seq<Source>, i: nat, group: seq<Chunk>, whole: bool)
    requires i < |sources| <= TWO32
  {
    && Contiguous(id, i, group) && Payload(group) <= BytesOf(sources[i])
    && (whole ==> ReadsFully(sources[i]) && Payload(group) == BytesOf(sources[i]))
  }

  /** Every file before the last group was read to its end; the last one too if `whole`. */
  predicate SentFiles(id: U32, sources: seq<Source>, groups: seq<seq<Chunk>>, whole: bool)
    requires |sources| <= TWO32
  {
    |groups| <= |sources|
    && forall i :: 0 <= i < |groups| ==> SentFile(id, sources, i, groups[i], whole || i < |groups| - 1)
  }

  /** The whole send: the chunks come file by file, each file from its start without
      gaps in pieces of 1 to 32768 bytes, and Done is sent only when every file was read
      to its end and all of it was sent. */
  method StreamFiles(id: U32, sources: seq<Source>, answer: Answer, canceled: nat -> bool)
    returns (sent: seq<Chunk>, end: End, ghost groups: seq<seq<Chunk>>)
    requires AllFit(sources)
    ensures sent == Flatten(groups) && SentFiles(id, sources, groups, end == Complete)
    ensures end == NotStarted <==> answer != Accepted
    ensures end == NotStarted ==> sent == []
    ensures end == Complete ==> |groups| == |sources|
    ensures end == Broken ==> exists i :: 0 <= i < |sources| && !ReadsFully(sources[i])
    ensures end == Stopped ==> exists k: nat :: canceled(k)
  {
    sent, groups := [], [];
    if answer != Accepted {
      return [], NotStarted, [];
    }
    var checks := 0;
    var fileIdx := 0;
    while fileIdx < |sources|
      invariant fileIdx <= |sources| && |groups| == fileIdx
      invariant sent == Flatten(groups) && SentFiles(id, sources, groups, true)
    {
      checks := checks + 1;
      if canceled(checks - 1) {
        return sent, Stopped, groups;
      }
      if sources[fileIdx].CannotOpen? {
        return sent, Broken, groups;
      }
      assert Fits(sources[fileIdx]);
      var group;
      group, end, checks := StreamFile(id, fileIdx, sources[fileIdx].results, canceled, checks);
      FlattenSnoc(groups, group);
      groups := groups + [group];
      sent := sent + group;
      if end != Complete {
        return;
      }
      fileIdx := fileIdx + 1;
    }
    end := Complete;
  }

  function Files(sources: seq<Source>): seq<seq<Byte>> {
    seq(|sources|, i requires 0 <= i < |sources| => BytesOf(sources[i]))
  }

  lemma {:induction false} InGroups(groups: seq<seq<Chunk>>, c: Chunk) returns (i: nat, k: nat)
    requires c in Flatten(groups)
    ensures i < |groups| && k < |groups[i]| && groups[i][k] == c
  {
    var n := |groups| - 1;
    if c in groups[n] {
      i := n;
      k :| 0 <= k < |groups[n]| && groups[n][k] == c;
    } else {
      i, k := InGroups(groups[..n], c);
    }
  }

  /** Whatever was sent, however the send ended: every chunk holds the bytes of its file
      at its offset. */
  lemma SentIsGenuine(id: U32, sources: seq<Source>, groups: seq<seq<Chunk>>, whole: bool, c: Chunk)
    requires |sources| <= TWO32 && SentFiles(id, sources, groups, whole) && c in Flatten(groups)
    ensures c.id == id && Genuine(Files(sources), c)
  {
    var i, k := InGroups(groups, c);
    assert SentFile(id, sources, i, groups[i], whole || i < |groups| - 1);
    assert InPlace(id, i, groups[i], k);
    ContiguousIsGenuine(id, i, groups[i], k, Files(sources));
  }
}
