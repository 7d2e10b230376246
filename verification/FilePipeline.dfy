/**
 The whole way of a file: hashed in slices, uploaded, assembled on the server, downloaded,
 decrypted. `up` and `down` are arbitrary runs of the upload and download tasks, so every pattern
 of lost replies, retries, queries, renewals and resumptions is included; the slice budgets of
 hashing and saving do not appear because neither result depends on them (LocalWork).
 */
module FilePipeline {
  import opened CachedFile
  import DecryptingReader
  import DownloadTask
  import opened FileCrypto
  import opened FileProtocol
  import LocalWork
  import UploadTask
  import opened Wrappers

  /** Hashing `plain` succeeded and led to this manifest and digest. */
  ghost predicate HashedInto(c: Cipher, plain: Bytes, m: Manifest, sha: string) {
    && c.Ideal() && plain != []
    && MIN_CHUNK_SIZE <= m.chunkSize <= MAX_CHUNK_SIZE
    && m.plainSize == |plain| && m.cipherSize >= 0
    && exists n :: LocalWork.WholeHash(c, plain, m.chunkSize) == LocalWork.Totals(m.cipherSize, n, sha)
  }

  lemma HashingDescribes(c: Cipher, plain: Bytes, m: Manifest, sha: string)
    requires HashedInto(c, plain, m, sha)
    ensures UploadTask.HashedFrom(UploadTask.Job(c, m, sha), plain)
  {
    var n := CeilDiv(|plain|, m.PlainChunkSize());
    BlobSize(c, plain, m.chunkSize);
    HashedLayoutAccepted(|plain|, m.chunkSize, n);
    CeilDivBounds(|plain|, m.PlainChunkSize());
    SealedLayout(|plain|, m.chunkSize, n, 0);
    CeilDivUnique(m.cipherSize, m.chunkSize, n);
  }

  /** All three readers of a cache holding the sender's ciphertext see the sender's file. */
  lemma GenuineCacheReads(c: Cipher, m: Manifest, plain: Bytes)
    requires c.Ideal() && Describes(m, plain)
    ensures var blob := Blob(c, plain, m.PlainChunkSize());
            && Decrypted(c, m, blob) == Some(plain)
            && DecryptingReader.Reflects(c, m, blob, plain)
            && DecryptingReader.FirstBad(c, m, blob, 0) == m.ChunkCount()
  {
    var blob := Blob(c, plain, m.PlainChunkSize());
    GenuineFileDecrypts(c, m, plain);
    DecryptingReader.DescribedHolds(m, plain);
    forall i: nat | i < m.ChunkCount()
      ensures OpenChunk(c, m, blob, i) == Some(PlainChunk(plain, m.PlainChunkSize(), i))
    {
      GenuineChunkOpens(c, m, plain, i);
    }
  }

  /**
   End to end, assuming nothing of the digest: the source file is left alone between hashing and
   upload, the download's replies come from the server holding the assembled object and nobody
   touches its temporary file. Then what is installed in the cache decrypts to the original.
   */
  lemma ReceivedFileIsSentFile(c: Cipher, plain: Bytes, m: Manifest, sha: string,
                               up: seq<UploadTask.Event>, down: seq<DownloadTask.Event>, blob: Bytes)
    requires HashedInto(c, plain, m, sha)
    requires m.Valid()
    requires UploadTask.ReadsOnly(up, plain)
    requires UploadTask.Run(UploadTask.Job(c, m, sha), up).blob == Some(blob)
    requires DownloadTask.Undisturbed(down)
    requires DownloadTask.GenuineRun(DownloadTask.Spec(m, sha, c.digest), None, blob, down)
    ensures blob == Blob(c, plain, m.PlainChunkSize())
    ensures var installed := DownloadTask.Run(DownloadTask.Spec(m, sha, c.digest), None, down).installed;
            installed.Some? ==> Decrypted(c, m, installed.value) == Some(plain)
  {
    var job := UploadTask.Job(c, m, sha);
    var spec := DownloadTask.Spec(m, sha, c.digest);
    HashingDescribes(c, plain, m, sha);
    UploadTask.ObjectIsHashedFile(job, plain, up);
    BlobSize(c, plain, m.chunkSize);
    DownloadTask.TempIsPrefix(spec, None, blob, down);
    GenuineFileDecrypts(c, m, plain);
  }

  /**
   End to end, with a digest nobody can match: whatever happens to the source file, whatever the
   server stores or answers and whoever touches the temporary file, an uploaded object is the
   hashed ciphertext, and a cache entry decrypts to the original.
   */
  lemma NothingElseIsReceived(c: Cipher, plain: Bytes, m: Manifest, sha: string,
                              up: seq<UploadTask.Event>, down: seq<DownloadTask.Event>, cache: Option<Bytes>)
    requires HashedInto(c, plain, m, sha) && c.Pins(Blob(c, plain, m.PlainChunkSize()))
    requires m.Valid()
    requires cache.Some? ==> c.digest(cache.value) == sha
    ensures UploadTask.Run(UploadTask.Job(c, m, sha), up).blob in {None, Some(Blob(c, plain, m.PlainChunkSize()))}
    ensures var cached := DownloadTask.Run(DownloadTask.Spec(m, sha, c.digest), cache, down).cache;
            cached.Some? ==> Decrypted(c, m, cached.value) == Some(plain)
  {
    HashingDescribes(c, plain, m, sha);
    UploadTask.UploadDeliversHashedFile(UploadTask.Job(c, m, sha), plain, up);
    DownloadTask.OnlyCheckedContentInstalled(DownloadTask.Spec(m, sha, c.digest), cache, down);
    GenuineFileDecrypts(c, m, plain);
  }

  /** The transfer these runs belong to: sent, then downloaded from what was stored, and decrypted to the original. */
  ghost predicate Transferred(c: Cipher, plain: Bytes, m: Manifest, sha: string,
                              up: seq<UploadTask.Event>, down: seq<DownloadTask.Event>)
    requires m.Valid()
  {
    var sent := UploadTask.Run(UploadTask.Job(c, m, sha), up);
    var received := DownloadTask.Run(DownloadTask.Spec(m, sha, c.digest), None, down);
    && UploadTask.ReadsOnly(up, plain) && sent.u.status == UploadTask.SentTask && sent.blob.Some?
    && DownloadTask.Undisturbed(down)
    && DownloadTask.GenuineRun(DownloadTask.Spec(m, sha, c.digest), None, sent.blob.value, down)
    && received.status == DownloadTask.Available && received.cache.Some?
    && Decrypted(c, m, received.cache.value) == Some(plain)
  }

  /** Every file that can be hashed can be transferred, whatever its size and chunk size. */
  lemma TransferCanSucceed(c: Cipher, plain: Bytes, m: Manifest, sha: string)
    requires HashedInto(c, plain, m, sha) && m.Valid()
    ensures exists up, down :: Transferred(c, plain, m, sha, up, down)
  {
    var job := UploadTask.Job(c, m, sha);
    var spec := DownloadTask.Spec(m, sha, c.digest);
    var blob := Blob(c, plain, m.PlainChunkSize());
    HashingDescribes(c, plain, m, sha);
    GenuineFileDecrypts(c, m, plain);
    BlobSize(c, plain, m.chunkSize);
    UploadTask.UploadCanSucceed(job, plain);
    DownloadTask.DownloadCanSucceed(spec, blob);
    hide UploadTask.Run, UploadTask.ReadsOnly, DownloadTask.Run, DownloadTask.GenuineRun, DownloadTask.Undisturbed;
    hide Decrypted, Blob, HashedInto, Manifest.Valid;
    var up :| UploadTask.ReadsOnly(up, plain) && UploadTask.Run(job, up).u.status == UploadTask.SentTask
              && UploadTask.Run(job, up).blob == Some(blob);
    var down :| DownloadTask.Undisturbed(down) && DownloadTask.GenuineRun(spec, None, blob, down)
                && DownloadTask.Run(spec, None, down).status == DownloadTask.Available
                && DownloadTask.Run(spec, None, down).cache == Some(blob);
    assert Transferred(c, plain, m, sha, up, down);
  }
}
