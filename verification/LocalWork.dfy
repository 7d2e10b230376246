/**
 The client's local file work: hashing a file before upload and decrypting a cached file to disk,
 both in time slices, and the in-memory viewer's decryption.

 A slice handles at least one chunk and then as many more as its time budget allows; `extra`
 is that number, so a statement for every `extra` is one for every timing.
 */
module LocalWork {
  import opened FileProtocol
  import opened FileCrypto
  import opened CachedFile
  import opened Wrappers

  const MAX_IN_MEMORY_DECODE_BYTES := 64 * 1024 * 1024

  datatype HashResult = Hashing | Totals(cipherSize: nat, chunkCount: nat, sha: string)
                      | ReadFailed | TooLarge | TooManyChunks | Inconsistent

  /** What one uninterrupted hashing pass over `plain` reports. */
  function WholeHash(c: Cipher, plain: Bytes, chunkSize: nat): HashResult
    requires chunkSize > GCM_TAG_SIZE
  {
    var blob := Blob(c, plain, chunkSize - GCM_TAG_SIZE);
    var n := CeilDiv(|plain|, chunkSize - GCM_TAG_SIZE);
    if |blob| > MAX_FILE_SIZE then TooLarge
    else if n > MAX_CHUNK_COUNT then TooManyChunks
    else Totals(|blob|, n, c.digest(blob))
  }

  class HashState {
    const cipher: Cipher
    const chunkSize: nat
    const plainSize: nat
    var offset: nat
    var chunkCount: nat
    var cipherSize: nat
    var digest: Bytes

    constructor (cipher: Cipher, chunkSize: nat, plainSize: nat, ghost plain: Bytes)
      requires MIN_CHUNK_SIZE <= chunkSize <= MAX_CHUNK_SIZE && |plain| == plainSize > 0
      ensures this.cipher == cipher && this.chunkSize == chunkSize && this.plainSize == plainSize
      ensures Hashed(plain) && offset == 0
    {
      this.cipher, this.chunkSize, this.plainSize := cipher, chunkSize, plainSize;
      offset, chunkCount, cipherSize, digest := 0, 0, 0, [];
    }

    function PlainChunkSize(): int {
      chunkSize - GCM_TAG_SIZE
    }

    /** The first chunkCount chunks of `plain` have been sealed and fed to the digest. */
    ghost predicate Hashed(plain: Bytes)
      reads this
    {
      && MIN_CHUNK_SIZE <= chunkSize <= MAX_CHUNK_SIZE && |plain| == plainSize > 0
      && chunkCount <= CeilDiv(plainSize, PlainChunkSize())
      && offset == Min(chunkCount * PlainChunkSize(), plainSize)
      && digest == Concat(CipherChunks(cipher, plain, PlainChunkSize())[..chunkCount])
      && cipherSize == |digest|
    }

    /** The next plain chunk starts at the current offset. */
    lemma ChunkFromOffset(plain: Bytes)
      requires Hashed(plain) && offset < plainSize
      ensures chunkCount < CeilDiv(plainSize, PlainChunkSize())
      ensures offset == chunkCount * PlainChunkSize()
      ensures Min((chunkCount + 1) * PlainChunkSize(), plainSize) == offset + Min(PlainChunkSize(), plainSize - offset)
      ensures PlainChunk(plain, PlainChunkSize(), chunkCount) == plain[offset..offset + Min(PlainChunkSize(), plainSize - offset)]
    {
      CeilDivBounds(plainSize, PlainChunkSize());
      assert (chunkCount + 1) * PlainChunkSize() == chunkCount * PlainChunkSize() + PlainChunkSize();
    }

    /** One chunk: read, seal, feed the digest, advance. Fails when the file has become too short. */
    method HashChunk(file: Bytes, ghost plain: Bytes) returns (readOk: bool)
      requires Hashed(plain) && offset < plainSize
      requires plain <= file || file <= plain
      modifies this
      ensures Hashed(plain)
      ensures plain <= file ==> readOk
      ensures readOk ==> chunkCount == old(chunkCount) + 1 && offset > old(offset)
      ensures !readOk ==> chunkCount == old(chunkCount) && offset == old(offset)
    {
      var want := Min(PlainChunkSize(), plainSize - offset);
      var chunk := FileRead(file, offset, want);
      if |chunk| != want {
        return false;
      }
      hide CeilDiv;
      ChunkFromOffset(plain);
      ConcatStep(CipherChunks(cipher, plain, PlainChunkSize()), chunkCount);
      assert chunk == PlainChunk(plain, PlainChunkSize(), chunkCount);
      hide PlainChunk, Concat;
      var sealed := cipher.seal(chunkCount, chunk);
      digest := digest + sealed;
      cipherSize := cipherSize + |sealed|;
      offset := offset + want;
      chunkCount := chunkCount + 1;
      return true;
    }

    /** At the end of the file the collected totals are those of the whole ciphertext. */
    lemma AllHashed(plain: Bytes)
      requires cipher.Ideal() && Hashed(plain) && offset == plainSize
      ensures chunkCount == CeilDiv(plainSize, PlainChunkSize())
      ensures digest == Blob(cipher, plain, PlainChunkSize())
      ensures cipherSize == plainSize + GCM_TAG_SIZE * chunkCount
    {
      var n := CeilDiv(plainSize, PlainChunkSize());
      CeilDivBounds(plainSize, PlainChunkSize());
      if chunkCount < n {
        MulMonotone(chunkCount, n - 1, PlainChunkSize());
      }
      var cs := CipherChunks(cipher, plain, PlainChunkSize());
      assert cs[..n] == cs;
      BlobSize(cipher, plain, chunkSize);
    }

    /** The checks made once the last chunk is hashed. */
    method Conclude(ghost plain: Bytes) returns (result: HashResult)
      requires cipher.Ideal() && Hashed(plain) && offset == plainSize
      ensures result == WholeHash(cipher, plain, chunkSize)
    {
      AllHashed(plain);
      HashedLayoutAccepted(plainSize, chunkSize, chunkCount);
      if cipherSize > MAX_FILE_SIZE {
        return TooLarge;
      } else if chunkCount > MAX_CHUNK_COUNT {
        return TooManyChunks;
      } else if !IsChunkingValid(cipherSize, chunkSize, chunkCount) {
        return Inconsistent;
      }
      return Totals(cipherSize, chunkCount, cipher.digest(digest));
    }

    method RunHashSlice(file: Bytes, extra: nat, ghost plain: Bytes) returns (result: HashResult)
      requires cipher.Ideal() && Hashed(plain) && offset < plainSize
      requires plain <= file || file <= plain
      modifies this
      ensures Hashed(plain)
      ensures result == ReadFailed ==> !(plain <= file)
      ensures result == Hashing ==> old(offset) < offset < plainSize && chunkCount == old(chunkCount) + 1 + extra
      ensures result !in {Hashing, ReadFailed} ==> result == WholeHash(cipher, plain, chunkSize)
    {
      var done := false;
      var turns := 0;
      while turns <= extra && !done
        invariant Hashed(plain) && done == (offset == plainSize)
        invariant turns <= extra + 1 && chunkCount == old(chunkCount) + turns
        invariant turns > 0 ==> old(offset) < offset
      {
        var readOk := HashChunk(file, plain);
        if !readOk {
          return ReadFailed;
        }
        done := offset >= plainSize;
        turns := turns + 1;
      }
      if !done {
        return Hashing;
      }
      result := Conclude(plain);
    }
  }

  /** Slice after slice, whatever each slice's budget: the result of one uninterrupted pass. */
  method HashInSlices(c: Cipher, chunkSize: nat, file: Bytes, budget: nat -> nat) returns (result: HashResult)
    requires c.Ideal() && MIN_CHUNK_SIZE <= chunkSize <= MAX_CHUNK_SIZE && file != []
    ensures result == WholeHash(c, file, chunkSize)
  {
    hide HashState.Hashed, WholeHash;
    var st := new HashState(c, chunkSize, |file|, file);
    result := Hashing;
    var slice := 0;
    while result == Hashing
      invariant st.cipher == c && st.chunkSize == chunkSize && st.Hashed(file)
      invariant result == Hashing ==> st.offset < st.plainSize
      invariant result != Hashing ==> result == WholeHash(c, file, chunkSize)
      invariant fresh(st)
      decreases result == Hashing, st.plainSize - st.offset
    {
      result := st.RunHashSlice(file, budget(slice), file);
      slice := slice + 1;
    }
  }

  datatype SaveResult = Saving | Saved(content: Bytes) | CacheDamaged | DestinationFailed

  class SaveState {
    const cipher: Cipher
    const manifest: Manifest
    var offset: nat
    var index: nat
    var written: nat
    var destination: Bytes

    constructor (cipher: Cipher, manifest: Manifest)
      requires manifest.Valid()
      ensures this.cipher == cipher && this.manifest == manifest
      ensures offset == 0 && forall cache :: Written(cache)
    {
      this.cipher, this.manifest := cipher, manifest;
      offset, index, written, destination := 0, 0, 0, [];
    }

    /** The first `index` chunks of the cache have been opened and written. */
    ghost predicate Written(cache: Bytes)
      reads this
    {
      && manifest.Valid() && index <= manifest.ChunkCount()
      && offset == Min(index * manifest.chunkSize, manifest.cipherSize)
      && OpenPrefix(cipher, manifest, cache, index) == Some(destination)
      && written == |destination|
    }

    lemma ChunkFromOffset(cache: Bytes)
      requires Written(cache) && offset < manifest.cipherSize
      ensures index < manifest.ChunkCount() && offset == index * manifest.chunkSize
      ensures Min(manifest.chunkSize, manifest.cipherSize - offset)
           == ExpectedChunkBytes(manifest.cipherSize, manifest.chunkSize, manifest.ChunkCount(), index)
      ensures offset + Min(manifest.chunkSize, manifest.cipherSize - offset)
           == Min((index + 1) * manifest.chunkSize, manifest.cipherSize)
    {
      CeilDivBounds(manifest.cipherSize, manifest.chunkSize);
      LayoutPartitions(manifest.cipherSize, manifest.chunkSize, manifest.ChunkCount(), index);
    }

    /** One chunk: read, open, write, advance. */
    method SaveChunk(cache: Bytes, writeOk: bool) returns (result: SaveResult)
      requires Written(cache) && offset < manifest.cipherSize
      modifies this
      ensures Written(cache)
      ensures result in {Saving, CacheDamaged, DestinationFailed}
      ensures result == Saving ==> index == old(index) + 1 && offset > old(offset)
      ensures result == CacheDamaged ==> OpenPrefix(cipher, manifest, cache, manifest.ChunkCount()).None?
      ensures result == DestinationFailed ==> !writeOk
      ensures result != Saving ==> unchanged(this)
    {
      ChunkFromOffset(cache);
      var want := Min(manifest.chunkSize, manifest.cipherSize - offset);
      var bytes := FileRead(cache, offset, want);
      if |bytes| != want {
        OpenPrefixFails(cipher, manifest, cache, index, manifest.ChunkCount());
        return CacheDamaged;
      }
      var plain := cipher.open(index, bytes);
      if plain == [] && want > GCM_TAG_SIZE {
        OpenPrefixFails(cipher, manifest, cache, index, manifest.ChunkCount());
        return CacheDamaged;
      }
      if !writeOk {
        return DestinationFailed;
      }
      destination := destination + plain;
      written := written + |plain|;
      offset := offset + want;
      index := index + 1;
      return Saving;
    }

    method RunSaveSlice(cache: Bytes, extra: nat, writeOk: nat -> bool) returns (result: SaveResult)
      requires Written(cache) && offset < manifest.cipherSize
      modifies this
      ensures Written(cache)
      ensures result == Saving ==> old(offset) < offset < manifest.cipherSize && index == old(index) + 1 + extra
      ensures result.Saved? ==> Decrypted(cipher, manifest, cache) == Some(result.content)
      ensures result == CacheDamaged ==> Decrypted(cipher, manifest, cache) == None
      ensures result == DestinationFailed ==> exists k: nat :: !writeOk(k)
    {
      var turns := 0;
      while turns <= extra && offset < manifest.cipherSize
        invariant Written(cache)
        invariant turns <= extra + 1 && index == old(index) + turns
        invariant turns > 0 ==> old(offset) < offset
      {
        var step := SaveChunk(cache, writeOk(index));
        if step != Saving {
          return step;
        }
        turns := turns + 1;
      }
      if offset < manifest.cipherSize {
        return Saving;
      }
      AllWritten(cache);
      if written != manifest.plainSize {
        return CacheDamaged;
      }
      return Saved(destination);
    }

    lemma AllWritten(cache: Bytes)
      requires Written(cache) && offset == manifest.cipherSize
      ensures index == manifest.ChunkCount()
    {
      CeilDivBounds(manifest.cipherSize, manifest.chunkSize);
      if index < manifest.ChunkCount() {
        MulMonotone(index, manifest.ChunkCount() - 1, manifest.chunkSize);
      }
    }
  }

  /** Slice after slice on a disk that takes every write: the whole decrypted file, or damage reported. */
  method SaveInSlices(c: Cipher, m: Manifest, cache: Bytes, budget: nat -> nat) returns (result: SaveResult)
    requires m.Valid()
    ensures result == match Decrypted(c, m, cache) case Some(plain) => Saved(plain) case None => CacheDamaged
  {
    hide SaveState.Written, Decrypted;
    var st := new SaveState(c, m);
    result := Saving;
    var slice := 0;
    while result == Saving
      invariant fresh(st) && st.cipher == c && st.manifest == m && st.Written(cache)
      invariant result == Saving ==> st.offset < m.cipherSize
      invariant result != Saving ==>
                  result == match Decrypted(c, m, cache) case Some(plain) => Saved(plain) case None => CacheDamaged
      decreases result == Saving, m.cipherSize - st.offset
    {
      result := st.RunSaveSlice(cache, budget(slice), (k: nat) => true);
      slice := slice + 1;
    }
  }

  /** The image viewer's decryption of a whole cached file into memory; empty when anything is wrong. */
  method DecryptedFileBytes(c: Cipher, m: Manifest, cache: Option<Bytes>) returns (plain: Bytes)
    requires m.Valid()
    ensures plain == if cache.None? || !(0 < m.plainSize <= MAX_IN_MEMORY_DECODE_BYTES) then []
                     else Decrypted(c, m, cache.value).GetOr([])
  {
    if m.plainSize <= 0 || m.plainSize > MAX_IN_MEMORY_DECODE_BYTES {
      return [];
    }
    if cache.None? {
      return [];
    }
    hide SaveState.Written, Decrypted, Manifest.Valid;
    var st := new SaveState(c, m);
    var step := Saving;
    while st.offset < m.cipherSize && step == Saving
      invariant fresh(st) && st.cipher == c && st.manifest == m && st.Written(cache.value)
      invariant step in {Saving, CacheDamaged}
      invariant step == CacheDamaged ==> OpenPrefix(c, m, cache.value, m.ChunkCount()).None?
      decreases step == Saving, m.cipherSize - st.offset
    {
      step := st.SaveChunk(cache.value, true);
    }
    if step != Saving {
      return [];
    }
    st.AllWritten(cache.value);
    return if |st.destination| != m.plainSize then [] else st.destination;
  }
}
