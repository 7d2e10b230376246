/**
 File encryption seen through its contract, and the ciphertext of a whole file.

 One `Cipher` stands for one file key and iv: `seal` and `open` take the chunk index, from which
 the source derives both nonce and associated data. `open` answers the empty sequence when
 authentication fails, as the source's decryptChunk does. The streaming digest is represented
 by the bytes fed to it.
 */
module FileCrypto {
  import opened FileProtocol

  newtype byte = x: int | 0 <= x < 256
  type Bytes = seq<byte>

  datatype Cipher = Cipher(seal: (nat, Bytes) -> Bytes, open: (nat, Bytes) -> Bytes, digest: Bytes -> string) {

    ghost predicate SealsAndOpens(i: nat, p: Bytes) {
      |seal(i, p)| == |p| + GCM_TAG_SIZE && open(i, seal(i, p)) == p
    }

    ghost predicate Authenticates(i: nat, x: Bytes) {
      open(i, x) != [] ==> x == seal(i, open(i, x))
    }

    /** The chunk index is part of what is authenticated. */
    ghost predicate BindsIndex(i: nat, j: nat, p: Bytes, q: Bytes) {
      i < MAX_CHUNK_COUNT && j < MAX_CHUNK_COUNT && seal(i, p) == seal(j, q) ==> i == j
    }

    /** Deterministic authenticated encryption with a 16-byte tag. */
    ghost predicate Ideal() {
      && (forall i: nat, p: Bytes :: SealsAndOpens(i, p))
      && (forall i: nat, x: Bytes :: Authenticates(i, x))
      && (forall i: nat, j: nat, p: Bytes, q: Bytes :: BindsIndex(i, j, p, q))
    }

    /** No other byte sequence has the digest of `blob`. */
    ghost predicate Pins(blob: Bytes) {
      forall x: Bytes :: digest(x) == digest(blob) ==> x == blob
    }

    lemma SealLength(i: nat, p: Bytes)
      requires Ideal()
      ensures |seal(i, p)| == |p| + GCM_TAG_SIZE
      ensures open(i, seal(i, p)) == p
    {
      assert SealsAndOpens(i, p);
    }

    lemma OpenedLength(i: nat, x: Bytes)
      requires Ideal() && open(i, x) != []
      ensures |x| == |open(i, x)| + GCM_TAG_SIZE
      ensures x == seal(i, open(i, x))
    {
      assert Authenticates(i, x);
      assert SealsAndOpens(i, open(i, x));
    }
  }

  /** Bytes i*p .. (i+1)*p of `plain`, cut at its end; empty past the end. */
  function PlainChunk(plain: Bytes, p: nat, i: nat): Bytes {
    plain[Min(i * p, |plain|)..Min((i + 1) * p, |plain|)]
  }

  function Concat(chunks: seq<Bytes>): Bytes {
    if chunks == [] then [] else Concat(chunks[..|chunks| - 1]) + chunks[|chunks| - 1]
  }

  function CipherChunks(c: Cipher, plain: Bytes, p: nat): seq<Bytes>
    requires p > 0
  {
    seq(CeilDiv(|plain|, p), (i: nat) => c.seal(i, PlainChunk(plain, p, i)))
  }

  /** The ciphertext object of a file: the concatenation of its sealed chunks. */
  function Blob(c: Cipher, plain: Bytes, p: nat): Bytes
    requires p > 0
  {
    Concat(CipherChunks(c, plain, p))
  }

  lemma ConcatStep(chunks: seq<Bytes>, k: nat)
    requires k < |chunks|
    ensures Concat(chunks[..k + 1]) == Concat(chunks[..k]) + chunks[k]
  {
    assert chunks[..k + 1][..k] == chunks[..k];
  }

  lemma {:induction false} ConcatPrefix(chunks: seq<Bytes>, k: nat)
    requires k <= |chunks|
    ensures Concat(chunks[..k]) <= Concat(chunks)
    decreases |chunks| - k
  {
    if k == |chunks| {
      assert chunks[..k] == chunks;
    } else {
      ConcatStep(chunks, k);
      ConcatPrefix(chunks, k + 1);
    }
  }

  /** The k-th chunk is found at the offset the first k chunks end at. */
  lemma ConcatSlice(chunks: seq<Bytes>, k: nat)
    requires k < |chunks|
    ensures |Concat(chunks[..k])| + |chunks[k]| <= |Concat(chunks)|
    ensures Concat(chunks)[|Concat(chunks[..k])|..|Concat(chunks[..k])| + |chunks[k]|] == chunks[k]
  {
    ConcatStep(chunks, k);
    ConcatPrefix(chunks, k + 1);
  }

  lemma {:induction false} PlainPrefix(plain: Bytes, p: nat, k: nat)
    requires p > 0 && k <= CeilDiv(|plain|, p)
    ensures Concat(seq(k, (i: nat) => PlainChunk(plain, p, i))) == plain[..Min(k * p, |plain|)]
  {
    var cs := seq(k, (i: nat) => PlainChunk(plain, p, i));
    if k > 0 {
      PlainPrefix(plain, p, k - 1);
      assert cs[..k - 1] == seq(k - 1, (i: nat) => PlainChunk(plain, p, i));
      MulMonotone(k - 1, k, p);
    }
  }

  /** The plain chunks put together again are the file. */
  lemma PlainReassembles(plain: Bytes, p: nat)
    requires p > 0
    ensures Concat(seq(CeilDiv(|plain|, p), (i: nat) => PlainChunk(plain, p, i))) == plain
  {
    PlainPrefix(plain, p, CeilDiv(|plain|, p));
    if plain != [] {
      CeilDivBounds(|plain|, p);
    }
  }

  /** Sizes of the first k sealed chunks, and what each prefix of the ciphertext holds. */
  lemma {:induction false} CipherPrefixSize(c: Cipher, plain: Bytes, chunkSize: nat, k: nat)
    requires c.Ideal() && chunkSize > GCM_TAG_SIZE && |plain| > 0
    requires k <= CeilDiv(|plain|, chunkSize - GCM_TAG_SIZE)
    ensures |Concat(CipherChunks(c, plain, chunkSize - GCM_TAG_SIZE)[..k])|
         == Min(k * chunkSize, |plain| + GCM_TAG_SIZE * CeilDiv(|plain|, chunkSize - GCM_TAG_SIZE))
  {
    var p := chunkSize - GCM_TAG_SIZE;
    var total := |plain| + GCM_TAG_SIZE * CeilDiv(|plain|, p);
    var cs := CipherChunks(c, plain, p);
    if k == 0 {
    } else {
      var start := (k - 1) * chunkSize;
      assert |Concat(cs[..k - 1])| == start by {
        CipherPrefixSize(c, plain, chunkSize, k - 1);
        SealedLayout(|plain|, chunkSize, CeilDiv(|plain|, p), k - 1);
      }
      assert |cs[k - 1]| == Min(chunkSize, total - start) by {
        SealedChunkLength(c, plain, chunkSize, k - 1);
      }
      ConcatStep(cs, k - 1);
      assert k * chunkSize == start + chunkSize;
    }
  }

  /** Sealed chunk i has exactly the length the protocol expects of ciphertext chunk i. */
  lemma SealedChunkLength(c: Cipher, plain: Bytes, chunkSize: nat, i: nat)
    requires c.Ideal() && chunkSize > GCM_TAG_SIZE
    requires i < CeilDiv(|plain|, chunkSize - GCM_TAG_SIZE)
    ensures var n := CeilDiv(|plain|, chunkSize - GCM_TAG_SIZE);
            var cs := CipherChunks(c, plain, chunkSize - GCM_TAG_SIZE);
            |cs[i]| == Min(chunkSize, |plain| + GCM_TAG_SIZE * n - i * chunkSize) > GCM_TAG_SIZE
  {
    var p := chunkSize - GCM_TAG_SIZE;
    var n := CeilDiv(|plain|, p);
    CeilDivBounds(|plain|, p);
    MulMonotone(i, n - 1, p);
    SealedLayout(|plain|, chunkSize, n, i);
    assert (i + 1) * p == i * p + p;
    assert CipherChunks(c, plain, p)[i] == c.seal(i, PlainChunk(plain, p, i));
    c.SealLength(i, PlainChunk(plain, p, i));
  }

  lemma BlobSize(c: Cipher, plain: Bytes, chunkSize: nat)
    requires c.Ideal() && chunkSize > GCM_TAG_SIZE && plain != []
    ensures |Blob(c, plain, chunkSize - GCM_TAG_SIZE)|
         == |plain| + GCM_TAG_SIZE * CeilDiv(|plain|, chunkSize - GCM_TAG_SIZE)
  {
    var p := chunkSize - GCM_TAG_SIZE;
    var n := CeilDiv(|plain|, p);
    CeilDivBounds(|plain|, p);
    CipherPrefixSize(c, plain, chunkSize, n);
    assert CipherChunks(c, plain, p)[..n] == CipherChunks(c, plain, p);
    SealedLayout(|plain|, chunkSize, n, n - 1);
  }

  /** Where each sealed chunk sits in a file's ciphertext. */
  lemma BlobLayout(c: Cipher, plain: Bytes, chunkSize: nat, i: nat, start: nat, length: int)
    requires c.Ideal() && chunkSize > GCM_TAG_SIZE && plain != []
    requires i < CeilDiv(|plain|, chunkSize - GCM_TAG_SIZE)
    requires start == i * chunkSize
    requires length == Min(chunkSize, |plain| + GCM_TAG_SIZE * CeilDiv(|plain|, chunkSize - GCM_TAG_SIZE) - start)
    ensures length > GCM_TAG_SIZE
    ensures start + length <= |Blob(c, plain, chunkSize - GCM_TAG_SIZE)|
    ensures Blob(c, plain, chunkSize - GCM_TAG_SIZE)[start..start + length]
         == c.seal(i, PlainChunk(plain, chunkSize - GCM_TAG_SIZE, i))
  {
    var cs := CipherChunks(c, plain, chunkSize - GCM_TAG_SIZE);
    SealedChunkLength(c, plain, chunkSize, i);
    assert |Concat(cs[..i])| == start by {
      CipherPrefixSize(c, plain, chunkSize, i);
    }
    ConcatSlice(cs, i);
  }
}
