/**
 The chunk arithmetic shared by client and server.

 `chunkSize` always counts ciphertext bytes, the 16-byte GCM tag included. Every intermediate
 value is below MAX_FILE_SIZE + MAX_CHUNK_SIZE, so the source's 64-bit arithmetic never wraps.
 */
module FileProtocol {

  const GCM_TAG_SIZE := 16
  const MIN_CHUNK_SIZE := 64 * 1024
  const MAX_CHUNK_SIZE := 4 * 1024 * 1024
  const MAX_FILE_SIZE := 2 * 1024 * 1024 * 1024
  const MAX_CHUNK_COUNT := 4096

  function Min(a: int, b: int): int {
    if a <= b then a else b
  }

  /** How many pieces of at most b bytes a bytes are cut into. */
  function CeilDiv(a: nat, b: nat): nat
    requires b > 0
  {
    if a == 0 then 0 else if a <= b then 1 else 1 + CeilDiv(a - b, b)
  }

  function ChunkCountFor(cipherSize: int, chunkSize: int): int {
    if cipherSize <= 0 || cipherSize > MAX_FILE_SIZE then 0
    else if chunkSize < MIN_CHUNK_SIZE || chunkSize > MAX_CHUNK_SIZE then 0
    else CeilDiv(cipherSize, chunkSize)
  }

  predicate IsChunkingValid(cipherSize: int, chunkSize: int, chunkCount: int) {
    && 0 < cipherSize <= MAX_FILE_SIZE
    && MIN_CHUNK_SIZE <= chunkSize <= MAX_CHUNK_SIZE
    && 0 < chunkCount <= MAX_CHUNK_COUNT
    && ChunkCountFor(cipherSize, chunkSize) == chunkCount
  }

  function ExpectedChunkBytes(cipherSize: int, chunkSize: int, chunkCount: int, index: int): int {
    if !IsChunkingValid(cipherSize, chunkSize, chunkCount) then -1
    else if index < 0 || index >= chunkCount then -1
    else if index < chunkCount - 1 then chunkSize
    else cipherSize - (chunkCount - 1) * chunkSize
  }

  lemma {:induction false} CeilDivBounds(a: nat, b: nat)
    requires a > 0 && b > 0
    ensures CeilDiv(a, b) > 0
    ensures (CeilDiv(a, b) - 1) * b < a <= CeilDiv(a, b) * b
  {
    if a > b {
      CeilDivBounds(a - b, b);
      var n := CeilDiv(a - b, b);
      assert (n + 1) * b == n * b + b;
      assert (n - 1) * b + b == n * b;
    }
  }

  lemma CeilDivUnique(a: nat, b: nat, n: int)
    requires a > 0 && b > 0
    requires (n - 1) * b < a <= n * b
    ensures CeilDiv(a, b) == n
  {
    CeilDivBounds(a, b);
    var q := CeilDiv(a, b);
    if n < q {
      MulMonotone(n, q - 1, b);
    } else if n > q {
      MulMonotone(q, n - 1, b);
    }
  }

  /** The source computes the same number with one division. */
  lemma CeilDivIsQuotient(a: nat, b: nat)
    requires a > 0 && b > 0
    ensures CeilDiv(a, b) == (a + b - 1) / b
  {
    var q := (a + b - 1) / b;
    assert b * q <= a + b - 1 < b * q + b;
    assert q * b == b * q && (q - 1) * b == b * q - b;
    CeilDivUnique(a, b, q);
  }

  lemma MulMonotone(x: int, y: int, b: int)
    requires x <= y && b >= 0
    ensures x * b <= y * b
  {
    assert (y - x) * b >= 0;
  }

  /** Chunk `index` is exactly the bytes from index*chunkSize up to the next boundary or the end. */
  lemma LayoutPartitions(cipherSize: int, chunkSize: int, chunkCount: int, index: int)
    requires IsChunkingValid(cipherSize, chunkSize, chunkCount)
    requires 0 <= index < chunkCount
    ensures 0 < ExpectedChunkBytes(cipherSize, chunkSize, chunkCount, index) <= chunkSize
    ensures index * chunkSize < cipherSize
    ensures index * chunkSize + ExpectedChunkBytes(cipherSize, chunkSize, chunkCount, index)
         == Min((index + 1) * chunkSize, cipherSize)
    ensures ExpectedChunkBytes(cipherSize, chunkSize, chunkCount, index)
         == Min(chunkSize, cipherSize - index * chunkSize)
    ensures index == chunkCount - 1 <==> cipherSize <= (index + 1) * chunkSize
  {
    CeilDivBounds(cipherSize, chunkSize);
    assert (index + 1) * chunkSize == index * chunkSize + chunkSize;
    if index < chunkCount - 1 {
      MulMonotone(index + 1, chunkCount - 1, chunkSize);
      MulMonotone(index, chunkCount - 1, chunkSize);
    }
  }

  /**
   Splitting `plainSize` bytes into plain chunks of chunkSize - 16 bytes and sealing each one
   yields a ciphertext whose own chunk count is the same n, and whose every expected chunk
   length is the plain chunk's length plus one tag.
   */
  lemma SealedLayout(plainSize: nat, chunkSize: nat, n: nat, i: nat)
    requires chunkSize > GCM_TAG_SIZE && plainSize > 0
    requires n == CeilDiv(plainSize, chunkSize - GCM_TAG_SIZE)
    requires i < n
    ensures (n - 1) * chunkSize < plainSize + GCM_TAG_SIZE * n <= n * chunkSize
    ensures i * chunkSize < plainSize + GCM_TAG_SIZE * n
    ensures Min(chunkSize, plainSize + GCM_TAG_SIZE * n - i * chunkSize)
         == GCM_TAG_SIZE + Min(chunkSize - GCM_TAG_SIZE, plainSize - i * (chunkSize - GCM_TAG_SIZE))
    ensures i < n - 1 ==> plainSize - i * (chunkSize - GCM_TAG_SIZE) > chunkSize - GCM_TAG_SIZE
  {
    hide CeilDiv;
    var p := chunkSize - GCM_TAG_SIZE;
    CeilDivBounds(plainSize, p);
    Products(p, n);
    Products(p, n - 1);
    Products(p, i);
    Products(p, i + 1);
    MulMonotone(i, n - 1, p);
    if i < n - 1 {
      MulMonotone(i + 1, n - 1, p);
    }
  }

  lemma Products(p: int, k: int)
    ensures k * (p + GCM_TAG_SIZE) == k * p + GCM_TAG_SIZE * k
    ensures k * p + p == (k + 1) * p
  {
  }

  /** The layout the hashing pass reports is accepted exactly when its totals are within bounds. */
  lemma HashedLayoutAccepted(plainSize: nat, chunkSize: nat, n: nat)
    requires MIN_CHUNK_SIZE <= chunkSize <= MAX_CHUNK_SIZE && plainSize > 0
    requires n == CeilDiv(plainSize, chunkSize - GCM_TAG_SIZE)
    ensures IsChunkingValid(plainSize + GCM_TAG_SIZE * n, chunkSize, n)
        <==> plainSize + GCM_TAG_SIZE * n <= MAX_FILE_SIZE && n <= MAX_CHUNK_COUNT
  {
    CeilDivBounds(plainSize, chunkSize - GCM_TAG_SIZE);
    SealedLayout(plainSize, chunkSize, n, 0);
    CeilDivUnique(plainSize + GCM_TAG_SIZE * n, chunkSize, n);
  }
}
