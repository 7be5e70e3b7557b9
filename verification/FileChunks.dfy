/** File chunks on the wire and the sender's chunking loop
    (internal/filetransfer/filetransfer_windows_send.go). */
module FileChunks {
  import opened Bytes
  import opened Options
  import opened Seqs

  const CHUNK_SIZE := 32 * 1024
  const HEADER := 16

  /** One chunk frame: which transfer, which file, where in it, and what. */
  datatype Chunk = Chunk(id: U32, file: U32, offset: U64, data: seq<Byte>)

  function Encode(c: Chunk): (p: seq<Byte>) {
    PutU32(c.id) + PutU32(c.file) + PutU64(c.offset) + c.data
  }

  /** A payload shorter than the header is ignored. */
  function Decode(p: seq<Byte>): Option<Chunk> {
    if |p| < HEADER then None
    else Some(Chunk(GetU32(p[0..4]), GetU32(p[4..8]), GetU64(p[8..16]), p[16..]))
  }

  lemma Fields<T>(a: seq<T>, b: seq<T>, c: seq<T>, d: seq<T>)
    requires |a| == 4 && |b| == 4 && |c| == 8
    ensures var p := a + b + c + d; p[0..4] == a && p[4..8] == b && p[8..16] == c && p[16..] == d
  {
  }

  lemma Headers(id: U32, file: U32, offset: U64)
    ensures |PutU32(id)| == 4 && |PutU64(offset)| == 8
    ensures GetU32(PutU32(id)) == id && GetU32(PutU32(file)) == file && GetU64(PutU64(offset)) == offset
  {
    assert PutU32(id) + [] == PutU32(id) && PutU32(file) + [] == PutU32(file) && PutU64(offset) + [] == PutU64(offset);
    U32RoundTrip(id, []);
    U32RoundTrip(file, []);
    U64RoundTrip(offset, []);
  }

  lemma ChunkRoundTrip(c: Chunk)
    ensures Decode(Encode(c)) == Some(c)
  {
    Fields(PutU32(c.id), PutU32(c.file), PutU64(c.offset), c.data);
    Headers(c.id, c.file, c.offset);
  }

  // What the sender emits

  /** The bytes of a list of chunks, end to end. */
  function Payload(chunks: seq<Chunk>): seq<Byte> {
    Flatten(Parts(chunks))
  }

  function Parts(chunks: seq<Chunk>): seq<seq<Byte>> {
    seq(|chunks|, i requires 0 <= i < |chunks| => chunks[i].data)
  }

  /** The chunk holds the bytes of its file that are found at its offset. */
  predicate Genuine(files: seq<seq<Byte>>, c: Chunk) {
    && c.file < |files|
    && c.offset + |c.data| <= |files[c.file]|
    && files[c.file][c.offset..c.offset + |c.data|] == c.data
  }

  /** Chunks of one file, in order, leaving no gap from its start. */
  predicate Contiguous(id: U32, file: U32, chunks: seq<Chunk>) {
    forall k :: 0 <= k < |chunks| ==> InPlace(id, file, chunks, k)
  }

  predicate InPlace(id: U32, file: U32, chunks: seq<Chunk>, k: nat)
    requires k < |chunks|
  {
    var c := chunks[k];
    c.id == id && c.file == file && c.offset == |Payload(chunks[..k])| && 0 < |c.data| <= CHUNK_SIZE
  }

  lemma PayloadSnoc(chunks: seq<Chunk>, c: Chunk)
    ensures Payload(chunks + [c]) == Payload(chunks) + c.data
  {
    assert Parts(chunks + [c]) == Parts(chunks) + [c.data];
    FlattenSnoc(Parts(chunks), c.data);
  }

  lemma ContiguousSnoc(id: U32, file: U32, chunks: seq<Chunk>, c: Chunk)
    requires Contiguous(id, file, chunks)
    requires c.id == id && c.file == file && c.offset == |Payload(chunks)| && 0 < |c.data| <= CHUNK_SIZE
    ensures Contiguous(id, file, chunks + [c])
  {
    var all := chunks + [c];
    assert all[..|chunks|] == chunks;
    forall k | 0 <= k < |all|
      ensures InPlace(id, file, all, k)
    {
      if k < |chunks| {
        assert InPlace(id, file, chunks, k);
        assert all[..k] == chunks[..k];
      }
    }
  }

  lemma PayloadPrefix(chunks: seq<Chunk>, k: nat)
    requires k <= |chunks|
    ensures Payload(chunks[..k]) <= Payload(chunks)
  {
    assert Parts(chunks) == Parts(chunks[..k]) + Parts(chunks[k..]);
    FlattenConcat(Parts(chunks[..k]), Parts(chunks[k..]));
  }

  /** Every chunk of a gapless list is genuine, for any file that starts with its bytes. */
  lemma ContiguousIsGenuine(id: U32, file: U32, chunks: seq<Chunk>, k: nat, files: seq<seq<Byte>>)
    requires Contiguous(id, file, chunks) && k < |chunks|
    requires file < |files| && Payload(chunks) <= files[file]
    ensures Genuine(files, chunks[k])
  {
    hide Payload;
    var c, p := chunks[k], chunks[..k];
    assert InPlace(id, file, chunks, k);
    PayloadPrefix(chunks, k + 1);
    PayloadSnoc(p, c);
    assert chunks[..k + 1] == p + [c];
    PrefixSlice(Payload(p), c.data, files[file]);
  }

  lemma PrefixSlice<T>(a: seq<T>, b: seq<T>, s: seq<T>)
    requires a + b <= s
    ensures |a| + |b| <= |s| && s[|a|..|a| + |b|] == b
  {
    assert s[..|a + b|] == a + b;
    assert s[|a|..|a| + |b|] == s[..|a + b|][|a|..];
  }
}
