/**
 Decrypting a cached ciphertext chunk by chunk, as all three readers of the client do
 (save to disk, in-memory viewer, media player).
 */
module CachedFile {
  import opened FileProtocol
  import opened FileCrypto
  import opened Wrappers

  /** The part of a file manifest the readers use; key and iv are inside the Cipher. */
  datatype Manifest = Manifest(plainSize: int, cipherSize: int, chunkSize: int)
  {
    function ChunkCount(): int {
      ChunkCountFor(cipherSize, chunkSize)
    }

    function PlainChunkSize(): int {
      chunkSize - GCM_TAG_SIZE
    }

    predicate Valid() {
      && IsChunkingValid(cipherSize, chunkSize, ChunkCount())
      && 0 <= plainSize <= MAX_FILE_SIZE && cipherSize >= plainSize + GCM_TAG_SIZE
    }
  }

  function FileRead(file: Bytes, offset: nat, want: nat): Bytes {
    file[Min(offset, |file|)..Min(offset + want, |file|)]
  }

  /** Chunk i read from `cache` and authenticated; None when it is cut short or does not authenticate. */
  function OpenChunk(c: Cipher, m: Manifest, cache: Bytes, i: nat): Option<Bytes>
    requires m.Valid() && i < m.ChunkCount()
  {
    var want := ExpectedChunkBytes(m.cipherSize, m.chunkSize, m.ChunkCount(), i);
    LayoutPartitions(m.cipherSize, m.chunkSize, m.ChunkCount(), i);
    var cipher := FileRead(cache, i * m.chunkSize, want);
    if |cipher| != want then None
    else if c.open(i, cipher) == [] && want > GCM_TAG_SIZE then None
    else Some(c.open(i, cipher))
  }

  /** The first k chunks decrypted and joined; None as soon as one of them is bad. */
  function OpenPrefix(c: Cipher, m: Manifest, cache: Bytes, k: nat): Option<Bytes>
    requires m.Valid() && k <= m.ChunkCount()
  {
    if k == 0 then Some([])
    else match (OpenPrefix(c, m, cache, k - 1), OpenChunk(c, m, cache, k - 1))
      case (Some(done), Some(chunk)) => Some(done + chunk)
      case _ => None
  }

  /** The whole file as its manifest promises it; None when anything is wrong with it. */
  function Decrypted(c: Cipher, m: Manifest, cache: Bytes): Option<Bytes>
    requires m.Valid()
  {
    match OpenPrefix(c, m, cache, m.ChunkCount())
    case None => None
    case Some(plain) => if |plain| == m.plainSize then Some(plain) else None
  }

  lemma {:induction false} OpenPrefixFails(c: Cipher, m: Manifest, cache: Bytes, i: nat, k: nat)
    requires m.Valid() && i < k <= m.ChunkCount()
    requires OpenPrefix(c, m, cache, i).None? || OpenChunk(c, m, cache, i).None?
    ensures OpenPrefix(c, m, cache, k).None?
  {
    if i + 1 < k {
      OpenPrefixFails(c, m, cache, i, k - 1);
    }
  }

  /** The manifest the sender builds for a file it has hashed. */
  ghost predicate Describes(m: Manifest, plain: Bytes) {
    && m.Valid()
    && plain != []
    && m.plainSize == |plain|
    && m.cipherSize == |plain| + GCM_TAG_SIZE * CeilDiv(|plain|, m.PlainChunkSize())
  }

  lemma DescribedChunkCount(m: Manifest, plain: Bytes)
    requires Describes(m, plain)
    ensures m.ChunkCount() == CeilDiv(|plain|, m.PlainChunkSize())
  {
    var n := CeilDiv(|plain|, m.PlainChunkSize());
    CeilDivBounds(|plain|, m.PlainChunkSize());
    SealedLayout(|plain|, m.chunkSize, n, 0);
    CeilDivUnique(m.cipherSize, m.chunkSize, n);
  }

  /** Every chunk of the sender's own ciphertext opens to the sender's plain chunk. */
  lemma GenuineChunkOpens(c: Cipher, m: Manifest, plain: Bytes, i: nat)
    requires c.Ideal() && Describes(m, plain) && i < m.ChunkCount()
    ensures OpenChunk(c, m, Blob(c, plain, m.PlainChunkSize()), i) == Some(PlainChunk(plain, m.PlainChunkSize(), i))
  {
    var p := m.PlainChunkSize();
    DescribedChunkCount(m, plain);
    LayoutPartitions(m.cipherSize, m.chunkSize, m.ChunkCount(), i);
    var want := ExpectedChunkBytes(m.cipherSize, m.chunkSize, m.ChunkCount(), i);
    BlobLayout(c, plain, m.chunkSize, i, i * m.chunkSize, want);
    c.SealLength(i, PlainChunk(plain, p, i));
  }

  lemma {:induction false} GenuinePrefixOpens(c: Cipher, m: Manifest, plain: Bytes, k: nat)
    requires c.Ideal() && Describes(m, plain) && k <= m.ChunkCount()
    ensures OpenPrefix(c, m, Blob(c, plain, m.PlainChunkSize()), k)
         == Some(Concat(seq(k, (i: nat) => PlainChunk(plain, m.PlainChunkSize(), i))))
  {
    if k > 0 {
      var p := m.PlainChunkSize();
      GenuinePrefixOpens(c, m, plain, k - 1);
      GenuineChunkOpens(c, m, plain, k - 1);
      assert seq(k, (i: nat) => PlainChunk(plain, p, i))[..k - 1] == seq(k - 1, (i: nat) => PlainChunk(plain, p, i));
    }
  }

  /** Decrypting the sender's ciphertext gives back the sender's file. */
  lemma GenuineFileDecrypts(c: Cipher, m: Manifest, plain: Bytes)
    requires c.Ideal() && Describes(m, plain)
    ensures Decrypted(c, m, Blob(c, plain, m.PlainChunkSize())) == Some(plain)
  {
    GenuinePrefixOpens(c, m, plain, m.ChunkCount());
    DescribedChunkCount(m, plain);
    PlainReassembles(plain, m.PlainChunkSize());
  }

  /** The bytes of `cache` where chunk i is expected. */
  function CachedChunk(m: Manifest, cache: Bytes, i: nat): Bytes
    requires m.Valid() && i < m.ChunkCount()
  {
    LayoutPartitions(m.cipherSize, m.chunkSize, m.ChunkCount(), i);
    FileRead(cache, i * m.chunkSize, ExpectedChunkBytes(m.cipherSize, m.chunkSize, m.ChunkCount(), i))
  }

  /**
   The cache may be cut, damaged or rearranged, but whatever in it authenticates is one of the
   chunks the sender sealed, at whatever place: nobody else holds the file key.
   */
  ghost predicate NoForgery(c: Cipher, m: Manifest, plain: Bytes, cache: Bytes)
    requires m.Valid()
  {
    forall i: nat :: i < m.ChunkCount() && c.open(i, CachedChunk(m, cache, i)) != [] ==>
      exists j: nat :: j < m.ChunkCount() && CachedChunk(m, cache, i) == c.seal(j, PlainChunk(plain, m.PlainChunkSize(), j))
  }

  /** A chunk that opens is the sender's chunk of that very index. */
  lemma OpenedChunkIsGenuine(c: Cipher, m: Manifest, plain: Bytes, cache: Bytes, i: nat)
    requires c.Ideal() && Describes(m, plain) && NoForgery(c, m, plain, cache)
    requires i < m.ChunkCount()
    ensures OpenChunk(c, m, cache, i) in {None, Some(PlainChunk(plain, m.PlainChunkSize(), i))}
  {
    if OpenChunk(c, m, cache, i).Some? {
      var p := m.PlainChunkSize();
      var x := CachedChunk(m, cache, i);
      DescribedChunkCount(m, plain);
      LayoutPartitions(m.cipherSize, m.chunkSize, m.ChunkCount(), i);
      SealedChunkLength(c, plain, m.chunkSize, i);
      assert c.open(i, x) != [];
      var j: nat :| j < m.ChunkCount() && x == c.seal(j, PlainChunk(plain, p, j));
      c.OpenedLength(i, x);
      assert c.BindsIndex(i, j, c.open(i, x), PlainChunk(plain, p, j));
      c.SealLength(j, PlainChunk(plain, p, j));
    }
  }

  lemma {:induction false} OpenedPrefixIsGenuine(c: Cipher, m: Manifest, plain: Bytes, cache: Bytes, k: nat)
    requires c.Ideal() && Describes(m, plain) && NoForgery(c, m, plain, cache)
    requires k <= m.ChunkCount()
    ensures OpenPrefix(c, m, cache, k)
         in {None, Some(Concat(seq(k, (i: nat) => PlainChunk(plain, m.PlainChunkSize(), i))))}
  {
    if k > 0 {
      var p := m.PlainChunkSize();
      OpenedPrefixIsGenuine(c, m, plain, cache, k - 1);
      OpenedChunkIsGenuine(c, m, plain, cache, k - 1);
      assert seq(k, (i: nat) => PlainChunk(plain, p, i))[..k - 1] == seq(k - 1, (i: nat) => PlainChunk(plain, p, i));
    }
  }

  /** A cache of any content decrypts to the sender's file or not at all. */
  lemma DecryptsToOriginalOrNothing(c: Cipher, m: Manifest, plain: Bytes, cache: Bytes)
    requires c.Ideal() && Describes(m, plain) && NoForgery(c, m, plain, cache)
    ensures Decrypted(c, m, cache) in {None, Some(plain)}
  {
    OpenedPrefixIsGenuine(c, m, plain, cache, m.ChunkCount());
    DescribedChunkCount(m, plain);
    PlainReassembles(plain, m.PlainChunkSize());
  }
}
