/**
 The media player's random-access view of a cached ciphertext: a one-chunk plaintext buffer
 behind seek and readData.
 */
module DecryptingReader {
  import opened FileProtocol
  import opened FileCrypto
  import opened CachedFile
  import opened Wrappers

  /** The chunk of p bytes that position `pos` falls into. */
  function ChunkAt(pos: nat, p: nat): (i: nat)
    requires p > 0
    ensures i * p <= pos < (i + 1) * p
  {
    if pos < p then 0
    else
      var i := ChunkAt(pos - p, p);
      assert (i + 1) * p == i * p + p && (i + 2) * p == i * p + p + p;
      i + 1
  }

  lemma ChunkAtUnique(pos: nat, p: nat, i: nat)
    requires p > 0 && i * p <= pos < (i + 1) * p
    ensures ChunkAt(pos, p) == i
  {
    var k := ChunkAt(pos, p);
    if k < i {
      MulMonotone(k + 1, i, p);
    } else if i < k {
      MulMonotone(i + 1, k, p);
    }
  }

  lemma ChunkAtIsQuotient(pos: nat, p: nat)
    requires p > 0
    ensures pos / p == ChunkAt(pos, p)
  {
    var i := pos / p;
    assert p * i <= pos < p * i + p;
    assert i * p == p * i && (i + 1) * p == p * i + p;
    ChunkAtUnique(pos, p, i);
  }

  /** Index of the first chunk at or after i that does not open; the chunk count if there is none. */
  function FirstBad(c: Cipher, m: Manifest, cache: Bytes, i: nat): (k: nat)
    requires m.Valid() && i <= m.ChunkCount()
    ensures i <= k <= m.ChunkCount()
    ensures k < m.ChunkCount() ==> OpenChunk(c, m, cache, k).None?
    ensures forall j: nat :: i <= j < k ==> OpenChunk(c, m, cache, j).Some?
    decreases m.ChunkCount() - i
  {
    if i == m.ChunkCount() || OpenChunk(c, m, cache, i).None? then i else FirstBad(c, m, cache, i + 1)
  }

  /** The promised plain length is what the chunks hold: every chunk but the last is full, each has a tag. */
  ghost predicate Holds(m: Manifest, plain: Bytes) {
    && m.Valid() && m.plainSize == |plain|
    && m.cipherSize == |plain| + GCM_TAG_SIZE * m.ChunkCount()
    && ExpectedChunkBytes(m.cipherSize, m.chunkSize, m.ChunkCount(), m.ChunkCount() - 1) >= GCM_TAG_SIZE
  }

  /** `plain` has the promised length, and every chunk that opens is its chunk of that index. */
  ghost predicate Reflects(c: Cipher, m: Manifest, cache: Bytes, plain: Bytes) {
    && Holds(m, plain)
    && forall i: nat :: i < m.ChunkCount() ==> OpenChunk(c, m, cache, i) in {None, Some(PlainChunk(plain, m.PlainChunkSize(), i))}
  }

  /** The sender's own manifests promise what their chunks hold. */
  lemma DescribedHolds(m: Manifest, plain: Bytes)
    requires Describes(m, plain)
    ensures Holds(m, plain)
  {
    var n := m.ChunkCount();
    DescribedChunkCount(m, plain);
    LayoutPartitions(m.cipherSize, m.chunkSize, n, n - 1);
    SealedLayout(|plain|, m.chunkSize, n, n - 1);
    CeilDivBounds(|plain|, m.PlainChunkSize());
  }

  lemma UnforgedCacheReflects(c: Cipher, m: Manifest, cache: Bytes, plain: Bytes)
    requires c.Ideal() && Describes(m, plain) && NoForgery(c, m, plain, cache)
    ensures Reflects(c, m, cache, plain)
  {
    DescribedHolds(m, plain);
    forall i: nat | i < m.ChunkCount()
      ensures OpenChunk(c, m, cache, i) in {None, Some(PlainChunk(plain, m.PlainChunkSize(), i))}
    {
      OpenedChunkIsGenuine(c, m, plain, cache, i);
    }
  }

  /** Where reading on from inside chunk i has to stop: the end of the file, or the first chunk that does not open. */
  function ReadableEnd(c: Cipher, m: Manifest, cache: Bytes, i: nat): int
    requires m.Valid() && i <= m.ChunkCount()
  {
    Min(FirstBad(c, m, cache, i) * m.PlainChunkSize(), m.plainSize)
  }

  lemma EndInFile(c: Cipher, m: Manifest, cache: Bytes, i: nat)
    requires m.Valid() && i <= m.ChunkCount()
    ensures ReadableEnd(c, m, cache, i) <= m.plainSize
  {
  }

  /** A position inside the file lies in one of its chunks, one that holds more than its tag. */
  lemma PositionInFile(m: Manifest, plain: Bytes, pos: nat)
    requires Holds(m, plain) && pos < m.plainSize
    ensures ChunkAt(pos, m.PlainChunkSize()) < m.ChunkCount()
    ensures ExpectedChunkBytes(m.cipherSize, m.chunkSize, m.ChunkCount(), ChunkAt(pos, m.PlainChunkSize())) > GCM_TAG_SIZE
  {
    var p, n := m.PlainChunkSize(), m.ChunkCount();
    CeilDivBounds(m.cipherSize, m.chunkSize);
    assert n * m.chunkSize == n * p + GCM_TAG_SIZE * n;
    assert (n - 1) * m.chunkSize == (n - 1) * p + GCM_TAG_SIZE * (n - 1);
    if n <= ChunkAt(pos, p) {
      MulMonotone(n, ChunkAt(pos, p), p);
    }
  }

  /** The chunk of the next position, and that reading on from there stops at the same place. */
  lemma NextPosition(c: Cipher, m: Manifest, cache: Bytes, plain: Bytes, i: nat, pos: nat)
    requires Holds(m, plain) && i < m.ChunkCount() && OpenChunk(c, m, cache, i).Some?
    requires i * m.PlainChunkSize() <= pos <= Min((i + 1) * m.PlainChunkSize(), m.plainSize)
    ensures pos <= ReadableEnd(c, m, cache, i)
    ensures pos < m.plainSize ==>
              && ChunkAt(pos, m.PlainChunkSize()) in {i, i + 1}
              && ChunkAt(pos, m.PlainChunkSize()) <= m.ChunkCount()
              && ReadableEnd(c, m, cache, ChunkAt(pos, m.PlainChunkSize())) == ReadableEnd(c, m, cache, i)
  {
    var p := m.PlainChunkSize();
    MulMonotone(i + 1, FirstBad(c, m, cache, i), p);
    if pos < (i + 1) * p {
      ChunkAtUnique(pos, p, i);
    } else {
      assert (i + 2) * p == (i + 1) * p + p;
      ChunkAtUnique(pos, p, i + 1);
    }
  }

  /** What one turn of the read loop does to the position, for any manifest, when every chunk opens. */
  datatype Turn = AtEnd | Fails | Advances(pos: int) | Repeats(pos: int)

  function LoopTurn(m: Manifest, pos: nat, room: nat): Turn
    requires m.Valid()
  {
    var p := m.PlainChunkSize();
    var i := ChunkAt(pos, p);
    var cipherLen := ExpectedChunkBytes(m.cipherSize, m.chunkSize, m.ChunkCount(), i);
    if pos >= m.plainSize then AtEnd
    else if i >= m.ChunkCount() || cipherLen <= GCM_TAG_SIZE then Fails
    else if cipherLen - GCM_TAG_SIZE - (pos - i * p) <= 0 then Repeats(i * p + cipherLen - GCM_TAG_SIZE)
    else Advances(pos + Min(room, cipherLen - GCM_TAG_SIZE - (pos - i * p)))
  }

  /** There is a chunk of more than a tag at this index, and it opens. */
  predicate Opens(c: Cipher, m: Manifest, cache: Bytes, i: nat)
    requires m.Valid()
  {
    && i < m.ChunkCount()
    && ExpectedChunkBytes(m.cipherSize, m.chunkSize, m.ChunkCount(), i) > GCM_TAG_SIZE
    && OpenChunk(c, m, cache, i).Some?
  }

  /** The same turn over a cache some of whose chunks may not open. */
  function TurnOver(c: Cipher, m: Manifest, cache: Bytes, pos: nat, room: nat): Turn
    requires m.Valid()
  {
    if pos < m.plainSize && !Opens(c, m, cache, ChunkAt(pos, m.PlainChunkSize())) then Fails else LoopTurn(m, pos, room)
  }

  /** A chunk that opens is one tag shorter than its ciphertext. */
  ghost predicate LengthsMatch(c: Cipher, m: Manifest, cache: Bytes)
    requires m.Valid()
  {
    forall i: nat :: Opens(c, m, cache, i) ==>
      |OpenChunk(c, m, cache, i).value| == ExpectedChunkBytes(m.cipherSize, m.chunkSize, m.ChunkCount(), i) - GCM_TAG_SIZE
  }

  lemma IdealLengthsMatch(c: Cipher, m: Manifest, cache: Bytes)
    requires c.Ideal() && m.Valid()
    ensures LengthsMatch(c, m, cache)
  {
    forall i: nat | Opens(c, m, cache, i)
      ensures |OpenChunk(c, m, cache, i).value| == ExpectedChunkBytes(m.cipherSize, m.chunkSize, m.ChunkCount(), i) - GCM_TAG_SIZE
    {
      c.OpenedLength(i, CachedChunk(m, cache, i));
    }
  }

  lemma HeldChunkLength(m: Manifest, plain: Bytes, i: nat)
    requires Holds(m, plain) && i < m.ChunkCount()
    ensures |PlainChunk(plain, m.PlainChunkSize(), i)|
         == ExpectedChunkBytes(m.cipherSize, m.chunkSize, m.ChunkCount(), i) - GCM_TAG_SIZE
  {
    hide CeilDiv, ChunkCountFor;
    var p, n := m.PlainChunkSize(), m.ChunkCount();
    LayoutPartitions(m.cipherSize, m.chunkSize, n, n - 1);
    assert (n - 1) * m.chunkSize == (n - 1) * p + GCM_TAG_SIZE * (n - 1);
    assert |plain| == (n - 1) * p + ExpectedChunkBytes(m.cipherSize, m.chunkSize, n, n - 1) - GCM_TAG_SIZE;
    assert (i + 1) * p == i * p + p;
    MulMonotone(0, i, p);
    if i < n - 1 {
      MulMonotone(i + 1, n - 1, p);
    }
  }

  lemma PlainChunkPositive(m: Manifest)
    requires m.Valid()
    ensures m.PlainChunkSize() > 0 && m.ChunkCount() > 0
  {
  }

  lemma ReflectedLengthsMatch(c: Cipher, m: Manifest, cache: Bytes, plain: Bytes)
    requires Reflects(c, m, cache, plain)
    ensures LengthsMatch(c, m, cache)
  {
    forall i: nat | Opens(c, m, cache, i)
      ensures |OpenChunk(c, m, cache, i).value| == ExpectedChunkBytes(m.cipherSize, m.chunkSize, m.ChunkCount(), i) - GCM_TAG_SIZE
    {
      HeldChunkLength(m, plain, i);
    }
  }

  /** Over a cache that reflects `plain`, a turn fails at a bad chunk and otherwise moves on over the file's bytes. */
  lemma ReflectedTurn(c: Cipher, m: Manifest, cache: Bytes, plain: Bytes, pos: nat, room: nat)
    requires Reflects(c, m, cache, plain) && pos < m.plainSize && room > 0
    ensures var i := ChunkAt(pos, m.PlainChunkSize());
            var turn := TurnOver(c, m, cache, pos, room);
            && i < m.ChunkCount()
            && (if OpenChunk(c, m, cache, i).None? then turn == Fails
                else && turn.Advances? && pos < turn.pos <= pos + room
                     && i * m.PlainChunkSize() <= turn.pos <= Min((i + 1) * m.PlainChunkSize(), m.plainSize)
                     && turn.pos - i * m.PlainChunkSize() <= |OpenChunk(c, m, cache, i).value|
                     && OpenChunk(c, m, cache, i).value[pos - i * m.PlainChunkSize()..turn.pos - i * m.PlainChunkSize()]
                        == plain[pos..turn.pos])
  {
    hide CeilDiv, ChunkCountFor, IsChunkingValid, ExpectedChunkBytes, OpenChunk, Manifest.ChunkCount;
    PlainChunkPositive(m);
    var p := m.PlainChunkSize();
    var i := ChunkAt(pos, p);
    PositionInFile(m, plain, pos);
    HeldChunkLength(m, plain, i);
    assert (i + 1) * p == i * p + p;
    MulMonotone(0, i, p);
  }

  class DecryptingIODevice {
    const cipher: Cipher
    const manifest: Manifest
    const cache: Bytes
    ghost const plain: Bytes
    var isOpen: bool
    var plainPos: int
    var chunkBuffer: Bytes
    var chunkBufferOffset: int
    var chunkPlainStart: int
    ghost var bufferIndex: nat

    /** For any valid manifest: the buffer, if used, holds the opened chunk it claims to. */
    ghost predicate Ready()
      reads this
    {
      && manifest.Valid() && LengthsMatch(cipher, manifest, cache)
      && plainPos >= 0
      && (chunkPlainStart >= 0 ==> Buffers(bufferIndex))
    }

    /** In addition the manifest promises what the chunks hold. */
    ghost predicate Valid()
      reads this
    {
      Ready() && Reflects(cipher, manifest, cache, plain) && plainPos <= manifest.plainSize
    }

    /** The buffer holds chunk i, opened. */
    ghost predicate Buffers(i: nat)
      requires manifest.Valid()
      reads this
    {
      && Opens(cipher, manifest, cache, i)
      && chunkPlainStart == i * manifest.PlainChunkSize()
      && OpenChunk(cipher, manifest, cache, i) == Some(chunkBuffer)
    }

    constructor (cipher: Cipher, manifest: Manifest, cache: Bytes, ghost plain: Bytes)
      requires manifest.Valid() && (cipher.Ideal() || Reflects(cipher, manifest, cache, plain))
      ensures Ready() && !isOpen
      ensures Reflects(cipher, manifest, cache, plain) ==> Valid()
      ensures this.cipher == cipher && this.manifest == manifest && this.cache == cache && this.plain == plain
    {
      this.cipher, this.manifest, this.cache, this.plain := cipher, manifest, cache, plain;
      isOpen, plainPos, chunkBuffer, chunkBufferOffset, chunkPlainStart := false, 0, [], 0, -1;
      bufferIndex := 0;
      if cipher.Ideal() {
        IdealLengthsMatch(cipher, manifest, cache);
      } else {
        ReflectedLengthsMatch(cipher, manifest, cache, plain);
      }
    }

    /** `known`: the message has a manifest and its cache is complete. */
    method Open(readOnly: bool, known: bool, fileOpens: bool) returns (ok: bool)
      requires Ready()
      modifies this
      ensures Ready() && (old(Valid()) ==> Valid())
      ensures ok == isOpen == (old(isOpen) || (readOnly && known && fileOpens))
      ensures old(isOpen) || !ok ==> unchanged(this)
      ensures ok && !old(isOpen) ==> plainPos == 0 && chunkBuffer == [] && chunkPlainStart == -1
    {
      if isOpen {
        return true;
      }
      if !readOnly {
        return false;
      }
      if !known {
        return false;
      }
      if !fileOpens {
        return false;
      }
      isOpen, plainPos, chunkBuffer, chunkBufferOffset, chunkPlainStart := true, 0, [], 0, -1;
      return true;
    }

    method Close()
      requires Ready()
      modifies this
      ensures Ready() && (old(Valid()) ==> Valid()) && !isOpen
      ensures old(isOpen) ==> chunkBuffer == [] && plainPos == 0
    {
      if !isOpen {
        return;
      }
      isOpen, plainPos, chunkBuffer, chunkBufferOffset, chunkPlainStart := false, 0, [], 0, -1;
    }

    method Seek(pos: int) returns (ok: bool)
      requires Ready()
      modifies this
      ensures Ready() && (old(Valid()) ==> Valid()) && isOpen == old(isOpen)
      ensures ok == (isOpen && 0 <= pos <= manifest.plainSize)
      ensures plainPos == if ok then pos else old(plainPos)
    {
      if !isOpen {
        return false;
      }
      if pos < 0 || pos > manifest.plainSize {
        return false;
      }
      plainPos, chunkBuffer, chunkBufferOffset, chunkPlainStart := pos, [], 0, -1;
      return true;
    }

    ghost function Here(): nat
      requires Ready()
      reads this
    {
      ChunkAt(plainPos, manifest.PlainChunkSize())
    }

    /** Makes the buffer hold the chunk of the current position, decrypting it unless it is already there. */
    method EnsureChunkFor() returns (ok: bool)
      requires Ready() && isOpen
      modifies this`chunkBuffer, this`chunkBufferOffset, this`chunkPlainStart, this`bufferIndex
      ensures Ready()
      ensures ok == Opens(cipher, manifest, cache, Here())
      ensures ok ==> chunkPlainStart >= 0 && bufferIndex == Here() && chunkBufferOffset == plainPos - chunkPlainStart
      ensures !ok ==> chunkBuffer == old(chunkBuffer) && chunkPlainStart == old(chunkPlainStart)
    {
      hide CeilDiv, ChunkCountFor, IsChunkingValid, ExpectedChunkBytes, OpenChunk;
      PlainChunkPositive(manifest);
      if chunkPlainStart >= 0 && plainPos >= chunkPlainStart && plainPos < chunkPlainStart + |chunkBuffer| {
        BufferedPosition();
        chunkBufferOffset := plainPos - chunkPlainStart;
        return true;
      }
      ChunkAtIsQuotient(plainPos, manifest.PlainChunkSize());
      var index := plainPos / manifest.PlainChunkSize();
      if index >= manifest.ChunkCount() {
        return false;
      }
      var chunk := DecryptChunk(index);
      if chunk.None? {
        return false;
      }
      MulMonotone(0, index, manifest.PlainChunkSize());
      chunkBuffer := chunk.value;
      chunkPlainStart := index * manifest.PlainChunkSize();
      chunkBufferOffset := plainPos - chunkPlainStart;
      bufferIndex := index;
      return true;
    }

    method DecryptChunk(index: nat) returns (chunk: Option<Bytes>)
      requires manifest.Valid() && index < manifest.ChunkCount()
      ensures chunk == if Opens(cipher, manifest, cache, index) then OpenChunk(cipher, manifest, cache, index) else None
    {
      hide CeilDiv, ChunkCountFor;
      LayoutPartitions(manifest.cipherSize, manifest.chunkSize, manifest.ChunkCount(), index);
      var cipherLen := ExpectedChunkBytes(manifest.cipherSize, manifest.chunkSize, manifest.ChunkCount(), index);
      if cipherLen <= GCM_TAG_SIZE {
        return None;
      }
      var bytes := FileRead(cache, index * manifest.chunkSize, cipherLen);
      if |bytes| != cipherLen {
        return None;
      }
      var opening := cipher.open(index, bytes);
      if opening == [] && cipherLen > GCM_TAG_SIZE {
        return None;
      }
      return Some(opening);
    }

    /** A position the buffer covers lies in the buffer's chunk. */
    lemma BufferedPosition()
      requires Ready() && 0 <= chunkPlainStart <= plainPos < chunkPlainStart + |chunkBuffer|
      ensures Here() == bufferIndex && Opens(cipher, manifest, cache, Here())
    {
      hide CeilDiv, ChunkCountFor, OpenChunk;
      var p := manifest.PlainChunkSize();
      LayoutPartitions(manifest.cipherSize, manifest.chunkSize, manifest.ChunkCount(), bufferIndex);
      assert (bufferIndex + 1) * p == bufferIndex * p + p;
      ChunkAtUnique(plainPos, p, bufferIndex);
    }

    /** One turn of the read loop, for any valid manifest: a piece is taken, the position passes the buffer, or the chunk is bad. */
    method ReadTurn(room: nat) returns (turn: Turn, piece: Bytes)
      requires Ready() && isOpen && plainPos < manifest.plainSize
      modifies this`plainPos, this`chunkBuffer, this`chunkBufferOffset, this`chunkPlainStart, this`bufferIndex
      ensures Ready()
      ensures turn == TurnOver(cipher, manifest, cache, old(plainPos), room)
      ensures plainPos == if turn == Fails then old(plainPos) else turn.pos
      ensures var start := old(Here()) * manifest.PlainChunkSize();
              if turn.Advances?
              then && start <= old(plainPos) <= turn.pos <= start + |OpenChunk(cipher, manifest, cache, old(Here())).value|
                   && piece == OpenChunk(cipher, manifest, cache, old(Here())).value[old(plainPos) - start..turn.pos - start]
              else piece == []
    {
      hide CeilDiv, ChunkCountFor, IsChunkingValid, ExpectedChunkBytes, OpenChunk;
      PlainChunkPositive(manifest);
      ghost var from, here := plainPos, Here();
      var ok := EnsureChunkFor();
      if !ok {
        return Fails, [];
      }
      var available := |chunkBuffer| - chunkBufferOffset;
      if available <= 0 {
        // past this chunk's bytes: go to where they end
        plainPos := chunkPlainStart + |chunkBuffer|;
        chunkBuffer, chunkBufferOffset, chunkPlainStart := [], 0, -1;
        return Repeats(plainPos), [];
      }
      var want := Min(room, available);
      piece := chunkBuffer[chunkBufferOffset..chunkBufferOffset + want];
      chunkBufferOffset := chunkBufferOffset + want;
      plainPos := plainPos + want;
      return Advances(plainPos), piece;
    }

    /** One turn over a cache that reflects the plain file: it fails at a bad chunk, or moves on over the file's bytes. */
    method ReadPiece(room: nat) returns (ok: bool, piece: Bytes)
      requires Valid() && isOpen && plainPos < manifest.plainSize && room > 0
      modifies this`plainPos, this`chunkBuffer, this`chunkBufferOffset, this`chunkPlainStart, this`bufferIndex
      ensures Valid() && old(Here()) < manifest.ChunkCount()
      ensures !ok ==> plainPos == old(plainPos) && ReadableEnd(cipher, manifest, cache, old(Here())) <= plainPos
      ensures ok ==>
                && old(plainPos) < plainPos <= old(plainPos) + room && piece == plain[old(plainPos)..plainPos]
                && plainPos <= ReadableEnd(cipher, manifest, cache, old(Here()))
                && (plainPos < manifest.plainSize ==>
                      && Here() <= manifest.ChunkCount()
                      && ReadableEnd(cipher, manifest, cache, Here()) == ReadableEnd(cipher, manifest, cache, old(Here())))
    {
      hide IsChunkingValid, ChunkCountFor, ChunkAt, CeilDiv, ExpectedChunkBytes, OpenChunk, TurnOver;
      ghost var from, here := plainPos, Here();
      ReflectedTurn(cipher, manifest, cache, plain, from, room);
      var turn;
      turn, piece := ReadTurn(room);
      if turn == Fails {
        return false, piece;
      }
      NextPosition(cipher, manifest, cache, plain, here, plainPos);
      return true, piece;
    }

    /** Reads from the current position: exactly the plain file's bytes up to the first chunk that does not open. */
    method ReadData(maxlen: int) returns (count: int, data: Bytes)
      requires Valid()
      modifies this`plainPos, this`chunkBuffer, this`chunkBufferOffset, this`chunkPlainStart, this`bufferIndex
      ensures Valid()
      ensures !isOpen ==> count == -1 && data == [] && plainPos == old(plainPos)
      ensures isOpen && (maxlen <= 0 || old(plainPos) == manifest.plainSize) ==>
                count == 0 && data == [] && plainPos == old(plainPos)
      ensures isOpen && maxlen > 0 && old(plainPos) < manifest.plainSize ==>
                && old(Here()) < manifest.ChunkCount()
                && var end := ReadableEnd(cipher, manifest, cache, old(Here()));
                if end <= old(plainPos) then count == -1 && data == [] && plainPos == old(plainPos)
                else && count == |data| && plainPos == Min(old(plainPos) + maxlen, end)
                     && data == plain[old(plainPos)..plainPos]
    {
      hide IsChunkingValid, ChunkCountFor, ChunkAt, CeilDiv, ExpectedChunkBytes, OpenChunk, ReadableEnd;
      data := [];
      if !isOpen {
        return -1, [];
      }
      if maxlen <= 0 {
        return 0, [];
      }
      if plainPos >= manifest.plainSize {
        return 0, [];
      }
      ghost var start := plainPos;
      PositionInFile(manifest, plain, start);
      ghost var end := ReadableEnd(cipher, manifest, cache, Here());
      EndInFile(cipher, manifest, cache, Here());
      var totalRead := 0;
      while totalRead < maxlen && plainPos < manifest.plainSize
        invariant Valid() && isOpen
        invariant start <= plainPos && totalRead == plainPos - start <= maxlen
        invariant plainPos == start || plainPos <= end
        invariant plainPos < manifest.plainSize ==>
                    Here() <= manifest.ChunkCount() && ReadableEnd(cipher, manifest, cache, Here()) == end
        invariant data == plain[start..plainPos]
        decreases manifest.plainSize - plainPos
      {
        var ok, piece := ReadPiece(maxlen - totalRead);
        if !ok {
          return if totalRead > 0 then totalRead else -1, data;
        }
        data := data + piece;
        totalRead := totalRead + |piece|;
      }
      return totalRead, data;
    }
  }

  /** Bytes the chunks of a ciphertext of this layout decrypt to. */
  function PlainTotal(m: Manifest): int
    requires m.Valid()
  {
    (m.ChunkCount() - 1) * m.PlainChunkSize() + LastChunkBytes(m) - GCM_TAG_SIZE
  }

  function LastChunkBytes(m: Manifest): int
    requires m.Valid()
  {
    ExpectedChunkBytes(m.cipherSize, m.chunkSize, m.ChunkCount(), m.ChunkCount() - 1)
  }

  /**
   The read loop of the source can come to a position it never leaves again exactly when the
   manifest claims more plain bytes than the chunks hold and the last chunk is a partial one.
   */
  lemma LoopSpinsExactlyWhen(m: Manifest)
    requires m.Valid()
    ensures (exists pos: nat :: LoopTurn(m, pos, 1).Repeats?)
        <==> m.plainSize > PlainTotal(m) && GCM_TAG_SIZE < LastChunkBytes(m) < m.chunkSize
  {
    hide IsChunkingValid, ChunkCountFor;
    var p := m.PlainChunkSize();
    var n := m.ChunkCount();
    assert n * p == (n - 1) * p + p;
    if m.plainSize > PlainTotal(m) && GCM_TAG_SIZE < LastChunkBytes(m) < m.chunkSize {
      MulMonotone(0, n - 1, p);
      ChunkAtUnique(PlainTotal(m), p, n - 1);
      assert LoopTurn(m, PlainTotal(m), 1).Repeats?;
    }
    forall pos: nat | LoopTurn(m, pos, 1).Repeats?
      ensures m.plainSize > PlainTotal(m) && GCM_TAG_SIZE < LastChunkBytes(m) < m.chunkSize
    {
      var i := ChunkAt(pos, p);
      assert (i + 1) * p == i * p + p;
      LayoutPartitions(m.cipherSize, m.chunkSize, n, i);
    }
  }

  /**
   Such manifests are valid: two chunks, the second of 100 bytes, and every byte the ciphertext size
   allows promised. The loop gets to the end of what the chunks hold and stays there.
   */
  lemma SpinningManifest()
    ensures var m := Manifest(65620, 65636, 65536);
            && m.Valid() && m.ChunkCount() == 2
            && LoopTurn(m, 0, 65604) == Advances(65520) && LoopTurn(m, 65520, 84) == Advances(65604)
            && LoopTurn(m, 65604, 16) == Repeats(65604)
  {
    var m := Manifest(65620, 65636, 65536);
    CeilDivUnique(65636, 65536, 2);
    ChunkAtUnique(0, 65520, 0);
    ChunkAtUnique(65520, 65520, 1);
    ChunkAtUnique(65604, 65520, 1);
  }

  /** Once there, every further turn ends at that same position. */
  lemma SpinsForever(m: Manifest, pos: nat, room: nat)
    requires m.Valid() && LoopTurn(m, pos, room).Repeats?
    ensures LoopTurn(m, pos, room).pos >= 0
    ensures LoopTurn(m, LoopTurn(m, pos, room).pos, room) == LoopTurn(m, pos, room)
  {
    var p := m.PlainChunkSize();
    var i := ChunkAt(pos, p);
    MulMonotone(0, i, p);
    ChunkAtUnique(LoopTurn(m, pos, room).pos, p, i);
  }

  /** A manifest that promises what its chunks hold, such as the sender's, never brings the loop there. */
  lemma HeldFilesNeverSpin(m: Manifest, plain: Bytes, pos: nat)
    requires Holds(m, plain)
    ensures !LoopTurn(m, pos, 1).Repeats?
  {
    var n := m.ChunkCount();
    assert (n - 1) * m.chunkSize == (n - 1) * m.PlainChunkSize() + (n - 1) * GCM_TAG_SIZE;
    assert PlainTotal(m) == m.plainSize;
    LoopSpinsExactlyWhen(m);
  }
}
