/**
 The server's local object storage: chunk files, temporary files and finished blobs.

 Every disk operation consults an oracle `io`, indexed by the number of operations made so far
 in the call: the operation is done, reports failure, or the process dies just before it.
 A crash at any point of a call is thus one choice of `io`. Methods hold the per-key lock of the
 source for their whole run, so they are modelled as not overlapping.
 */
module ObjectStorage {
  import opened FileProtocol
  import opened FileCrypto

  datatype FinalizeStatus = Ok | InvalidArguments | Incomplete | ChunkSizeMismatch | ChecksumMismatch | StorageError
  datatype Outcome = Finished(status: FinalizeStatus) | Crashed
  datatype Io = Done | Fails | Dies

  const BLOB_KEY_LENGTH := 32
  const SHA256_HEX_LENGTH := 64

  predicate IsHexLower(s: string, length: nat) {
    |s| == length && forall k :: 0 <= k < |s| ==> '0' <= s[k] <= '9' || 'a' <= s[k] <= 'f'
  }

  ghost predicate Reliable(io: nat -> Io) {
    forall t: nat :: io(t) == Done
  }

  ghost predicate Complete(chunks: map<nat, Bytes>, chunkCount: int) {
    forall i: nat :: i in chunks <==> i < chunkCount
  }

  function ChunkSeq(chunks: map<nat, Bytes>, n: nat): seq<Bytes>
    requires forall i: nat :: i < n ==> i in chunks
  {
    seq(n, (i: nat) requires i < n => chunks[i])
  }

  ghost predicate SizesMatch(chunks: map<nat, Bytes>, cipherSize: int, chunkSize: int, chunkCount: int)
    requires Complete(chunks, chunkCount)
  {
    forall i: nat :: i < chunkCount ==> |chunks[i]| == ExpectedChunkBytes(cipherSize, chunkSize, chunkCount, i)
  }

  /** What assembling a given set of stored chunks must answer, disk faults aside. */
  ghost function Verdict(digest: Bytes -> string, chunks: map<nat, Bytes>,
                   cipherSize: int, chunkSize: int, chunkCount: int, sha: string): FinalizeStatus
    requires IsChunkingValid(cipherSize, chunkSize, chunkCount)
  {
    if !Complete(chunks, chunkCount) then Incomplete
    else if !SizesMatch(chunks, cipherSize, chunkSize, chunkCount) then ChunkSizeMismatch
    else if digest(Concat(ChunkSeq(chunks, chunkCount))) != sha then ChecksumMismatch
    else Ok
  }

  /**
   Assembling stops with a size mismatch at chunk i: the earlier ones were read and written in full,
   and this one cannot be read or has a wrong length. Chunk j takes operations first + 2j and first + 2j + 1.
   */
  predicate MismatchAt(chunks: map<nat, Bytes>, cipherSize: int, chunkSize: int, chunkCount: int,
                       io: nat -> Io, first: nat, i: nat)
    requires forall j: nat :: j <= i ==> j in chunks
  {
    && io(first + 2 * i) != Dies
    && (io(first + 2 * i) == Fails || |chunks[i]| != ExpectedChunkBytes(cipherSize, chunkSize, chunkCount, i))
    && Copied(chunks, cipherSize, chunkSize, chunkCount, io, first, i)
  }

  /** The first i chunks were read and written in full. */
  predicate Copied(chunks: map<nat, Bytes>, cipherSize: int, chunkSize: int, chunkCount: int,
                   io: nat -> Io, first: nat, i: nat)
    requires forall j: nat :: j < i ==> j in chunks
  {
    forall j: nat :: j < i ==>
      && io(first + 2 * j) == Done && io(first + 2 * j + 1) == Done
      && |chunks[j]| == ExpectedChunkBytes(cipherSize, chunkSize, chunkCount, j)
  }

  ghost predicate Mismatches(chunks: map<nat, Bytes>, cipherSize: int, chunkSize: int, chunkCount: int,
                             io: nat -> Io, first: nat)
    requires Complete(chunks, chunkCount)
  {
    exists i: nat :: i < chunkCount && MismatchAt(chunks, cipherSize, chunkSize, chunkCount, io, first, i)
  }

  lemma CopiedStep(chunks: map<nat, Bytes>, cipherSize: int, chunkSize: int, chunkCount: int, io: nat -> Io, first: nat, i: nat)
    requires forall j: nat :: j <= i ==> j in chunks
    ensures Copied(chunks, cipherSize, chunkSize, chunkCount, io, first, i + 1)
       <==> && Copied(chunks, cipherSize, chunkSize, chunkCount, io, first, i)
            && io(first + 2 * i) == Done && io(first + 2 * i + 1) == Done
            && |chunks[i]| == ExpectedChunkBytes(cipherSize, chunkSize, chunkCount, i)
  {
    hide ExpectedChunkBytes;
  }

  lemma MismatchFound(chunks: map<nat, Bytes>, cipherSize: int, chunkSize: int, chunkCount: int, io: nat -> Io, first: nat, i: nat)
    requires Complete(chunks, chunkCount) && i < chunkCount
    requires MismatchAt(chunks, cipherSize, chunkSize, chunkCount, io, first, i)
    ensures Mismatches(chunks, cipherSize, chunkSize, chunkCount, io, first)
  {
  }

  /** No size mismatch when all is copied, the process dies over chunk i, or chunk i is read but not written. */
  lemma NoMismatch(chunks: map<nat, Bytes>, cipherSize: int, chunkSize: int, chunkCount: int, io: nat -> Io, first: nat, i: nat)
    requires Complete(chunks, chunkCount) && i <= chunkCount
    requires Copied(chunks, cipherSize, chunkSize, chunkCount, io, first, i)
    requires || i == chunkCount
             || io(first + 2 * i) == Dies
             || (io(first + 2 * i) == Done && io(first + 2 * i + 1) != Done
                 && |chunks[i]| == ExpectedChunkBytes(cipherSize, chunkSize, chunkCount, i))
    ensures !Mismatches(chunks, cipherSize, chunkSize, chunkCount, io, first)
  {
    hide ExpectedChunkBytes;
  }

  lemma NothingCopied(chunks: map<nat, Bytes>, cipherSize: int, chunkSize: int, chunkCount: int, io: nat -> Io, first: nat)
    ensures Copied(chunks, cipherSize, chunkSize, chunkCount, io, first, 0)
    ensures Concat([]) == []
  {
  }

  lemma AllCopied(chunks: map<nat, Bytes>, cipherSize: int, chunkSize: int, chunkCount: nat, io: nat -> Io, first: nat)
    requires Complete(chunks, chunkCount) && Copied(chunks, cipherSize, chunkSize, chunkCount, io, first, chunkCount)
    ensures SizesMatch(chunks, cipherSize, chunkSize, chunkCount)
    ensures !Mismatches(chunks, cipherSize, chunkSize, chunkCount, io, first)
  {
    NoMismatch(chunks, cipherSize, chunkSize, chunkCount, io, first, chunkCount);
  }

  /** With every chunk of the right length, exactly a failed read is taken for a wrong length. */
  lemma UnreadableIsMismatch(chunks: map<nat, Bytes>, cipherSize: int, chunkSize: int, chunkCount: int, io: nat -> Io, first: nat)
    requires Complete(chunks, chunkCount) && SizesMatch(chunks, cipherSize, chunkSize, chunkCount)
    ensures Mismatches(chunks, cipherSize, chunkSize, chunkCount, io, first)
       <==> exists i: nat :: i < chunkCount && io(first + 2 * i) == Fails
                             && forall j: nat :: j < i ==> io(first + 2 * j) == Done && io(first + 2 * j + 1) == Done
  {
    if i: nat :| i < chunkCount && io(first + 2 * i) == Fails
                 && forall j: nat :: j < i ==> io(first + 2 * j) == Done && io(first + 2 * j + 1) == Done
    {
      assert MismatchAt(chunks, cipherSize, chunkSize, chunkCount, io, first, i);
    }
  }

  /** Chunks of the declared sizes always add up to the declared total. */
  lemma {:induction false} MatchingSizesAddUp(chunks: map<nat, Bytes>, cipherSize: int, chunkSize: int,
                                              chunkCount: int, k: nat)
    requires IsChunkingValid(cipherSize, chunkSize, chunkCount)
    requires Complete(chunks, chunkCount) && SizesMatch(chunks, cipherSize, chunkSize, chunkCount)
    requires k <= chunkCount
    ensures |Concat(ChunkSeq(chunks, chunkCount)[..k])| == Min(k * chunkSize, cipherSize)
  {
    if k > 0 {
      MatchingSizesAddUp(chunks, cipherSize, chunkSize, chunkCount, k - 1);
      LayoutPartitions(cipherSize, chunkSize, chunkCount, k - 1);
      ConcatStep(ChunkSeq(chunks, chunkCount), k - 1);
    }
  }

  lemma AssembledSize(chunks: map<nat, Bytes>, cipherSize: int, chunkSize: int, chunkCount: int)
    requires IsChunkingValid(cipherSize, chunkSize, chunkCount)
    requires Complete(chunks, chunkCount) && SizesMatch(chunks, cipherSize, chunkSize, chunkCount)
    ensures |Concat(ChunkSeq(chunks, chunkCount))| == cipherSize
  {
    MatchingSizesAddUp(chunks, cipherSize, chunkSize, chunkCount, chunkCount);
    CeilDivBounds(cipherSize, chunkSize);
    assert ChunkSeq(chunks, chunkCount)[..chunkCount] == ChunkSeq(chunks, chunkCount);
  }

  /** On a disk without faults a mismatch is a chunk of a wrong length. */
  lemma ReliableMismatch(chunks: map<nat, Bytes>, cipherSize: int, chunkSize: int, chunkCount: int, io: nat -> Io, first: nat)
    requires Complete(chunks, chunkCount) && Reliable(io)
    ensures Mismatches(chunks, cipherSize, chunkSize, chunkCount, io, first)
            ==> !SizesMatch(chunks, cipherSize, chunkSize, chunkCount)
  {
    hide ExpectedChunkBytes;
  }

  /** Some of these chunks, unchanged. */
  ghost predicate Within(chunks: map<nat, Bytes>, before: map<nat, Bytes>) {
    forall i :: i in chunks ==> i in before && chunks[i] == before[i]
  }

  lemma OneLess(chunks: map<nat, Bytes>, before: map<nat, Bytes>, i: nat)
    requires Within(chunks, before) && i in chunks
    ensures Within(chunks - {i}, before) && |chunks - {i}| < |chunks|
  {
    assert chunks == (chunks - {i})[i := chunks[i]];
  }

  lemma OnlyThisKey(parts: map<string, map<nat, Bytes>>, key: string, chunks: map<nat, Bytes>)
    ensures parts[key := chunks] - {key} == parts - {key}
  {
  }

  class LocalFileStorage {
    const digest: Bytes -> string
    var parts: map<string, map<nat, Bytes>>
    var temps: map<(string, string), Bytes>
    var blobs: map<string, Bytes>

    constructor (digest: Bytes -> string)
      ensures this.digest == digest && parts == map[] && temps == map[] && blobs == map[]
    {
      this.digest := digest;
      parts, temps, blobs := map[], map[], map[];
    }

    function Chunks(key: string): map<nat, Bytes>
      reads this
    {
      if key in parts then parts[key] else map[]
    }

    /** Everything stored under other keys is as it was. */
    twostate predicate OthersUnchanged(key: string)
      reads this
    {
      && parts - {key} == old(parts) - {key}
      && blobs - {key} == old(blobs) - {key}
    }

    predicate IsFinalized(key: string)
      reads this
    {
      IsHexLower(key, BLOB_KEY_LENGTH) && key in blobs
    }

    method PutChunk(key: string, index: int, data: Bytes, io: nat -> Io) returns (stored: bool)
      modifies this`parts
      ensures OthersUnchanged(key)
      ensures stored <==> && IsHexLower(key, BLOB_KEY_LENGTH) && 0 <= index < MAX_CHUNK_COUNT && data != []
                          && io(0) == io(1) == Done
      ensures Chunks(key) == if stored then old(Chunks(key))[index := data] else old(Chunks(key))
    {
      if !IsHexLower(key, BLOB_KEY_LENGTH) || index < 0 || index > MAX_CHUNK_COUNT - 1 || data == [] {
        return false;
      }
      if io(0) != Done {
        return false;
      }
      // the chunk directory exists from here on, even if the write below does not happen
      parts := parts[key := Chunks(key)];
      if io(1) != Done {
        return false;
      }
      parts := parts[key := Chunks(key)[index := data]];
      return true;
    }

    /** The stored chunk indexes, ascending. */
    method ReceivedChunks(key: string) returns (indexes: seq<nat>)
      ensures forall a, b :: 0 <= a < b < |indexes| ==> indexes[a] < indexes[b]
      ensures forall i :: i in indexes <==> IsHexLower(key, BLOB_KEY_LENGTH) && i in Chunks(key) && i < MAX_CHUNK_COUNT
    {
      indexes := [];
      if !IsHexLower(key, BLOB_KEY_LENGTH) {
        return;
      }
      for i := 0 to MAX_CHUNK_COUNT
        invariant forall a, b :: 0 <= a < b < |indexes| ==> indexes[a] < indexes[b]
        invariant forall j :: j in indexes <==> j in Chunks(key) && j < i
      {
        if i in Chunks(key) {
          assert forall a :: 0 <= a < |indexes| ==> indexes[a] in indexes;
          indexes := indexes + [i];
        }
      }
    }

    /** The listing is 0..chunkCount-1 exactly when every chunk below chunkCount is there and no other. */
    method AllReceived(key: string, chunkCount: nat) returns (all: bool)
      requires IsHexLower(key, BLOB_KEY_LENGTH) && chunkCount <= MAX_CHUNK_COUNT
      requires forall i :: i in Chunks(key) ==> i < MAX_CHUNK_COUNT
      ensures all == Complete(Chunks(key), chunkCount)
    {
      var received := ReceivedChunks(key);
      if |received| != chunkCount {
        if Complete(Chunks(key), chunkCount) {
          AscendingListing(received, chunkCount);
          assert false;
        }
        return false;
      }
      for i := 0 to chunkCount
        invariant forall j :: 0 <= j < i ==> received[j] == j
      {
        if received[i] != i {
          if Complete(Chunks(key), chunkCount) {
            AscendingListing(received, chunkCount);
            assert false;
          }
          return false;
        }
      }
      forall i: nat
        ensures i in Chunks(key) <==> i < chunkCount
      {
        assert i in received <==> i in Chunks(key);
        if i in received {
          var k :| 0 <= k < |received| && received[k] == i;
        }
        if i < chunkCount {
          assert received[i] in received;
        }
      }
      return true;
    }

    /** Reads the chunks in order into a temporary file, stopping at the first one of a wrong length. */
    method Assemble(key: string, temp: string, cipherSize: int, chunkSize: int, chunkCount: int, io: nat -> Io, first: nat)
      returns (outcome: Outcome, content: Bytes)
      requires IsChunkingValid(cipherSize, chunkSize, chunkCount)
      requires Complete(Chunks(key), chunkCount)
      modifies this`temps
      ensures outcome.Finished? ==> outcome.status in {Ok, ChunkSizeMismatch, StorageError}
      ensures outcome == Finished(Ok) ==>
                && SizesMatch(Chunks(key), cipherSize, chunkSize, chunkCount)
                && content == Concat(ChunkSeq(Chunks(key), chunkCount))
                && (key, temp) in temps && temps[(key, temp)] == content
      ensures outcome == Finished(ChunkSizeMismatch) <==>
                Mismatches(Chunks(key), cipherSize, chunkSize, chunkCount, io, first)
      ensures Reliable(io) ==> outcome in {Finished(Ok), Finished(ChunkSizeMismatch)}
    {
      hide ExpectedChunkBytes, CeilDiv, ChunkCountFor, Mismatches, Copied, Concat;
      var chunks := Chunks(key);
      content := [];
      temps := temps[(key, temp) := []];
      ghost var all := ChunkSeq(chunks, chunkCount);
      NothingCopied(chunks, cipherSize, chunkSize, chunkCount, io, first);
      for i := 0 to chunkCount
        invariant content == Concat(all[..i])
        invariant (key, temp) in temps && temps[(key, temp)] == content
        invariant Copied(chunks, cipherSize, chunkSize, chunkCount, io, first, i)
      {
        if io(first + 2 * i) == Dies {
          NoMismatch(chunks, cipherSize, chunkSize, chunkCount, io, first, i);
          return Crashed, content;
        }
        // a chunk file that cannot be read counts as an empty chunk
        var chunk := if io(first + 2 * i) == Done then chunks[i] else [];
        LayoutPartitions(cipherSize, chunkSize, chunkCount, i);
        if |chunk| != ExpectedChunkBytes(cipherSize, chunkSize, chunkCount, i) {
          MismatchFound(chunks, cipherSize, chunkSize, chunkCount, io, first, i);
          return Finished(ChunkSizeMismatch), content;
        }
        if io(first + 2 * i + 1) != Done {
          NoMismatch(chunks, cipherSize, chunkSize, chunkCount, io, first, i);
        }
        match io(first + 2 * i + 1) {
          case Done =>
          case Fails => return Finished(StorageError), content;
          case Dies => return Crashed, content;
        }
        ConcatStep(all, i);
        CopiedStep(chunks, cipherSize, chunkSize, chunkCount, io, first, i);
        temps := temps[(key, temp) := temps[(key, temp)] + chunk];
        content := content + chunk;
      }
      AllCopied(chunks, cipherSize, chunkSize, chunkCount, io, first);
      assert all[..chunkCount] == all;
      return Finished(Ok), content;
    }

    /** Deletes chunk files one after another until done, failed or killed. */
    method RemoveParts(key: string, io: nat -> Io) returns (removed: bool, crashed: bool)
      modifies this`parts
      ensures parts - {key} == old(parts) - {key}
      ensures forall i :: i in Chunks(key) ==> i in old(Chunks(key)) && Chunks(key)[i] == old(Chunks(key))[i]
      ensures removed ==> Chunks(key) == map[]
      ensures Reliable(io) ==> removed && !crashed
    {
      ghost var others, before := parts - {key}, Chunks(key);
      var left := Chunks(key);
      var t := 0;
      while left != map[]
        invariant parts - {key} == others
        invariant Chunks(key) == left && Within(left, before)
        decreases |left|
      {
        match io(t) {
          case Done =>
          case Fails => return false, false;
          case Dies => return false, true;
        }
        var i :| i in left;
        OneLess(left, before, i);
        OnlyThisKey(parts, key, left - {i});
        left := left - {i};
        parts := parts[key := left];
        t := t + 1;
      }
      parts := parts - {key};
      return true, false;
    }

    /** Checks the digest of an assembled temporary file and moves it into place. */
    method Install(key: string, temp: string, content: Bytes, sha: string, io: nat -> Io) returns (outcome: Outcome)
      requires (key, temp) in temps && temps[(key, temp)] == content
      modifies this
      ensures OthersUnchanged(key)
      ensures outcome.Finished? ==> outcome.status in {Ok, ChecksumMismatch, StorageError}
      ensures outcome == Finished(ChecksumMismatch) ==> digest(content) != sha
      ensures outcome == Finished(Ok) ==> digest(content) == sha && blobs == old(blobs)[key := content]
      ensures outcome.Finished? && outcome.status != Ok ==> parts == old(parts) && blobs == old(blobs)
      ensures outcome == Crashed ==>
                || (parts == old(parts) && blobs == old(blobs))
                || (digest(content) == sha && blobs == old(blobs)[key := content])
      ensures forall i :: i in Chunks(key) ==> i in old(Chunks(key))
      ensures Reliable(io) ==> outcome.Finished? && outcome.status != StorageError
    {
      if digest(content) != sha {
        temps := temps - {(key, temp)};
        return Finished(ChecksumMismatch);
      }
      match io(0) { // create the blob directory
        case Done =>
        case Fails => temps := temps - {(key, temp)}; return Finished(StorageError);
        case Dies => return Crashed;
      }
      match io(1) { // rename into place
        case Done =>
        case Fails => temps := temps - {(key, temp)}; return Finished(StorageError);
        case Dies => return Crashed;
      }
      blobs := blobs[key := temps[(key, temp)]];
      temps := temps - {(key, temp)};
      var removed, crashed := RemoveParts(key, (t: nat) => io(t + 2));
      if crashed {
        return Crashed;
      }
      return Finished(Ok); // left-over chunks do not change the answer
    }

    /** Directory, name and file of the temporary object. */
    method OpenTemporary(suffix: string, io: nat -> Io) returns (outcome: Outcome)
      ensures outcome == Finished(Ok) <==> io(0) == Done && suffix != [] && io(1) == Done
      ensures outcome in {Finished(Ok), Finished(StorageError), Crashed} && (Reliable(io) ==> outcome != Crashed)
    {
      match io(0) { // create the temporary directory
        case Done =>
        case Fails => return Finished(StorageError);
        case Dies => return Crashed;
      }
      if suffix == [] { // no random bytes for the temporary name
        return Finished(StorageError);
      }
      match io(1) { // open the temporary file
        case Done =>
        case Fails => return Finished(StorageError);
        case Dies => return Crashed;
      }
      return Finished(Ok);
    }

    method Finalize(key: string, cipherSize: int, chunkSize: int, chunkCount: int, sha: string,
                    suffix: string, io: nat -> Io) returns (outcome: Outcome)
      requires forall i :: i in Chunks(key) ==> i < MAX_CHUNK_COUNT
      modifies this
      ensures OthersUnchanged(key)
      // malformed arguments are refused and change nothing
      ensures outcome != Finished(InvalidArguments) <==>
                && IsHexLower(key, BLOB_KEY_LENGTH) && IsHexLower(sha, SHA256_HEX_LENGTH)
                && IsChunkingValid(cipherSize, chunkSize, chunkCount)
      ensures outcome == Finished(InvalidArguments) ==> unchanged(this)
      // an object that is already there is never touched
      ensures outcome != Finished(InvalidArguments) && key in old(blobs) ==>
                && unchanged(this)
                && outcome == Finished(if |old(blobs)[key]| == cipherSize then Ok else ChecksumMismatch)
      // whatever is not Ok leaves chunks and object as they were
      ensures outcome.Finished? && outcome.status != Ok ==> Chunks(key) == old(Chunks(key)) && blobs == old(blobs)
      ensures outcome.Finished? && outcome.status in {Ok, Incomplete, ChecksumMismatch} && key !in old(blobs) ==>
                outcome.status == Verdict(digest, old(Chunks(key)), cipherSize, chunkSize, chunkCount, sha)
      // a size mismatch is answered exactly when a chunk of a complete set is unreadable or of a wrong length
      ensures outcome == Finished(ChunkSizeMismatch) <==>
                && IsHexLower(key, BLOB_KEY_LENGTH) && IsHexLower(sha, SHA256_HEX_LENGTH)
                && IsChunkingValid(cipherSize, chunkSize, chunkCount) && key !in old(blobs)
                && Complete(old(Chunks(key)), chunkCount) && io(0) == Done && suffix != [] && io(1) == Done
                && Mismatches(old(Chunks(key)), cipherSize, chunkSize, chunkCount, io, 2)
      // success, or a crash after the rename: the object is the chunks in order
      ensures outcome == Finished(Ok) && key !in old(blobs) ==>
                blobs == old(blobs)[key := Concat(ChunkSeq(old(Chunks(key)), chunkCount))]
      ensures outcome == Crashed ==>
                || (Chunks(key) == old(Chunks(key)) && blobs == old(blobs))
                || (&& Verdict(digest, old(Chunks(key)), cipherSize, chunkSize, chunkCount, sha) == Ok
                    && blobs == old(blobs)[key := Concat(ChunkSeq(old(Chunks(key)), chunkCount))])
      ensures forall i :: i in Chunks(key) ==> i in old(Chunks(key))
      ensures Reliable(io) && suffix != [] && outcome != Finished(InvalidArguments) && key !in old(blobs) ==>
                outcome == Finished(Verdict(digest, old(Chunks(key)), cipherSize, chunkSize, chunkCount, sha))
    {
      hide SizesMatch, Mismatches, Concat, ChunkSeq, ExpectedChunkBytes, CeilDiv;
      if !IsHexLower(key, BLOB_KEY_LENGTH) || !IsChunkingValid(cipherSize, chunkSize, chunkCount)
         || !IsHexLower(sha, SHA256_HEX_LENGTH) {
        return Finished(InvalidArguments);
      }
      if IsFinalized(key) {
        return Finished(if |blobs[key]| == cipherSize then Ok else ChecksumMismatch);
      }
      var all := AllReceived(key, chunkCount);
      if !all {
        return Finished(Incomplete);
      }
      var begun := OpenTemporary(suffix, io);
      if begun != Finished(Ok) {
        return begun;
      }
      ghost var chunks := Chunks(key);
      var assembled, content := Assemble(key, suffix, cipherSize, chunkSize, chunkCount, io, 2);
      if assembled != Finished(Ok) {
        if Reliable(io) {
          ReliableMismatch(chunks, cipherSize, chunkSize, chunkCount, io, 2);
        }
        if assembled.Finished? {
          temps := temps - {(key, suffix)};
        }
        return assembled;
      }
      AssembledSize(chunks, cipherSize, chunkSize, chunkCount);
      if |content| != cipherSize {
        assert false; // the sizes were checked chunk by chunk
      }
      outcome := Install(key, suffix, content, sha, (t: nat) => io(t + 2 * chunkCount + 2));
    }

    /** A crash anywhere, then a retry on a healthy disk: the same object as one undisturbed call. */
    method FinalizeAfterCrash(key: string, cipherSize: int, chunkSize: int, chunkCount: int, sha: string,
                              suffix: string, io: nat -> Io, suffix': string, io': nat -> Io)
      returns (outcome: Outcome)
      requires forall i :: i in Chunks(key) ==> i < MAX_CHUNK_COUNT
      requires IsHexLower(key, BLOB_KEY_LENGTH) && IsHexLower(sha, SHA256_HEX_LENGTH)
      requires IsChunkingValid(cipherSize, chunkSize, chunkCount)
      requires key !in blobs && suffix' != [] && Reliable(io')
      modifies this
      ensures outcome == Finished(Verdict(digest, old(Chunks(key)), cipherSize, chunkSize, chunkCount, sha))
      ensures outcome == Finished(Ok) ==>
                blobs == old(blobs)[key := Concat(ChunkSeq(old(Chunks(key)), chunkCount))]
      ensures outcome != Finished(Ok) ==> blobs == old(blobs) && Chunks(key) == old(Chunks(key))
      ensures OthersUnchanged(key)
    {
      ghost var chunks := Chunks(key);
      var first := Finalize(key, cipherSize, chunkSize, chunkCount, sha, suffix, io);
      if key in blobs {
        AssembledSize(chunks, cipherSize, chunkSize, chunkCount);
      }
      outcome := Finalize(key, cipherSize, chunkSize, chunkCount, sha, suffix', io');
    }

    /** Chunks that pass every check are answered as faulty data when one of them cannot be read. */
    method FinalizeUnreadable(key: string, cipherSize: int, chunkSize: int, chunkCount: int, sha: string,
                              suffix: string, unreadable: nat) returns (outcome: Outcome)
      requires forall i :: i in Chunks(key) ==> i < MAX_CHUNK_COUNT
      requires IsHexLower(key, BLOB_KEY_LENGTH) && IsHexLower(sha, SHA256_HEX_LENGTH) && suffix != []
      requires IsChunkingValid(cipherSize, chunkSize, chunkCount) && key !in blobs && unreadable < chunkCount
      requires Verdict(digest, Chunks(key), cipherSize, chunkSize, chunkCount, sha) == Ok
      modifies this
      ensures outcome == Finished(ChunkSizeMismatch)
      ensures Chunks(key) == old(Chunks(key)) && blobs == old(blobs)
    {
      var io := (t: nat) => if t == 2 + 2 * unreadable then Fails else Done;
      UnreadableIsMismatch(Chunks(key), cipherSize, chunkSize, chunkCount, io, 2);
      assert io(2 + 2 * unreadable) == Fails;
      outcome := Finalize(key, cipherSize, chunkSize, chunkCount, sha, suffix, io);
    }

    /** Operation 0 opens the file, 1 positions it, 2 reads. */
    method ReadRange(key: string, offset: int, length: int, io: nat -> Io) returns (data: Bytes)
      ensures IsFinalized(key) && 0 <= offset < |blobs[key]| && length > 0 && io(0) == io(1) == io(2) == Done ==>
                data == blobs[key][offset..Min(offset + length, |blobs[key]|)]
      ensures !(IsFinalized(key) && 0 <= offset < |blobs[key]| && length > 0 && io(0) == io(1) == io(2) == Done) ==> data == []
    {
      if !IsFinalized(key) || offset < 0 || length <= 0 {
        return [];
      }
      if io(0) != Done {
        return [];
      }
      var size := |blobs[key]|;
      if offset >= size {
        return [];
      }
      var readable := Min(length, size - offset);
      if io(1) != Done {
        return [];
      }
      if io(2) != Done {
        return []; // fewer bytes than asked for are dropped
      }
      data := blobs[key][offset..offset + readable];
    }

    method Remove(key: string, io: nat -> Io) returns (ok: bool)
      modifies this
      ensures OthersUnchanged(key)
      ensures !IsHexLower(key, BLOB_KEY_LENGTH) ==> unchanged(this)
      ensures forall i :: i in Chunks(key) ==> i in old(Chunks(key)) && Chunks(key)[i] == old(Chunks(key))[i]
      ensures key in blobs ==> key in old(blobs) && blobs[key] == old(blobs)[key]
      ensures forall name :: name in temps ==> name in old(temps) && temps[name] == old(temps)[name]
      ensures ok ==> IsHexLower(key, BLOB_KEY_LENGTH) && Chunks(key) == map[] && key !in blobs && (forall name :: name in temps ==> name.0 != key)
      ensures Reliable(io) ==> ok == IsHexLower(key, BLOB_KEY_LENGTH)
    {
      if !IsHexLower(key, BLOB_KEY_LENGTH) {
        return false;
      }
      var removed, crashed := RemoveParts(key, io);
      if crashed {
        return false;
      }
      var tempsGone := io(MAX_CHUNK_COUNT) == Done;
      if tempsGone {
        temps := map name | name in temps && name.0 != key :: temps[name];
      }
      if io(MAX_CHUNK_COUNT + 1) == Done {
        blobs := blobs - {key};
      }
      return removed && tempsGone && key !in blobs;
    }
  }

  /** An ascending duplicate-free listing of exactly 0..n-1 is that range in order. */
  lemma {:induction false} AscendingListing(listing: seq<nat>, n: nat)
    requires forall a, b :: 0 <= a < b < |listing| ==> listing[a] < listing[b]
    requires forall i: nat :: i in listing <==> i < n
    ensures |listing| == n && forall i: nat :: i < n ==> listing[i] == i
  {
    if listing == [] {
      assert 0 in listing <==> 0 < n;
    } else {
      var last := |listing| - 1;
      assert listing[last] in listing;
      assert n - 1 in listing;
      var k :| 0 <= k < |listing| && listing[k] == n - 1;
      var front := listing[..last];
      forall i: nat
        ensures i in front <==> i < n - 1
      {
        if i in front {
          var a :| 0 <= a < last && front[a] == i;
          assert listing[a] in listing && listing[a] < listing[last];
        }
        if i < n - 1 {
          assert i in listing;
          var a :| 0 <= a < |listing| && listing[a] == i;
          assert front[a] == i;
        }
      }
      AscendingListing(front, n - 1);
    }
  }

  /** Chunk writes applied one after another. */
  function Writes(chunks: map<nat, Bytes>, ops: seq<(nat, Bytes)>): map<nat, Bytes> {
    if ops == [] then chunks
    else Writes(chunks, ops[..|ops| - 1])[ops[|ops| - 1].0 := ops[|ops| - 1].1]
  }

  /** `k` is the last position in `ops` that writes chunk i. */
  ghost predicate LastWrite(ops: seq<(nat, Bytes)>, i: nat, k: nat) {
    k < |ops| && ops[k].0 == i && forall j :: k < j < |ops| ==> ops[j].0 != i
  }

  lemma {:induction false} LastWriteWins(chunks: map<nat, Bytes>, ops: seq<(nat, Bytes)>, i: nat, k: nat)
    requires LastWrite(ops, i, k)
    ensures i in Writes(chunks, ops) && Writes(chunks, ops)[i] == ops[k].1
  {
    var last := |ops| - 1;
    if k != last {
      LastWriteWins(chunks, ops[..last], i, k);
    }
  }

  /** Any order and any repetition of the same writes assembles to the same object, with the same verdict. */
  lemma AssemblyOrderFree(digest: Bytes -> string, ops: seq<(nat, Bytes)>, ops': seq<(nat, Bytes)>,
                          content: map<nat, Bytes>, cipherSize: int, chunkSize: int, n: int, sha: string)
    requires IsChunkingValid(cipherSize, chunkSize, n)
    requires forall k :: 0 <= k < |ops| ==> ops[k].0 in content && ops[k].1 == content[ops[k].0]
    requires forall k :: 0 <= k < |ops'| ==> ops'[k].0 in content && ops'[k].1 == content[ops'[k].0]
    requires forall i :: i in content ==> (exists k: nat :: LastWrite(ops, i, k)) && (exists k: nat :: LastWrite(ops', i, k))
    ensures Writes(map[], ops) == Writes(map[], ops') == content
    ensures Verdict(digest, Writes(map[], ops), cipherSize, chunkSize, n, sha)
         == Verdict(digest, Writes(map[], ops'), cipherSize, chunkSize, n, sha)
  {
    WritesAreContent(ops, content);
    WritesAreContent(ops', content);
  }

  lemma WritesAreContent(ops: seq<(nat, Bytes)>, content: map<nat, Bytes>)
    requires forall k :: 0 <= k < |ops| ==> ops[k].0 in content && ops[k].1 == content[ops[k].0]
    requires forall i :: i in content ==> exists k: nat :: LastWrite(ops, i, k)
    ensures Writes(map[], ops) == content
  {
    WritesOnly(map[], ops, content);
    forall i | i in content
      ensures i in Writes(map[], ops) && Writes(map[], ops)[i] == content[i]
    {
      var k: nat :| LastWrite(ops, i, k);
      LastWriteWins(map[], ops, i, k);
    }
  }

  /** Writing nothing but the intended chunks keeps every stored chunk an intended one. */
  lemma {:induction false} WritesOnly(chunks: map<nat, Bytes>, ops: seq<(nat, Bytes)>, content: map<nat, Bytes>)
    requires forall i :: i in chunks ==> i in content && chunks[i] == content[i]
    requires forall k :: 0 <= k < |ops| ==> ops[k].0 in content && ops[k].1 == content[ops[k].0]
    ensures forall i :: i in Writes(chunks, ops) ==> i in content && Writes(chunks, ops)[i] == content[i]
  {
    if ops != [] {
      WritesOnly(chunks, ops[..|ops| - 1], content);
    }
  }
}
