/**
 Distribution of group sender keys: a new key is sent to the members in several chunks and is
 used only after the server has acknowledged every one of them. The distribution is spread over
 five tables of the client, which replies, timeouts, newer rotations and lost connections change.

 `Dist` holds these tables as values, together with a record of what was issued, acknowledged,
 given up and encrypted; `Step` is what each handler does to them; SenderKeyDistributor does the
 same in place, entry by entry. Conversation ids are positive. Request and message ids are never reused.
 */
module SenderKeys {
  import opened Wrappers

  const IN_FLIGHT_TIMEOUT_MS := 30000

  type Conv = int
  type KeyId = int
  type Uuid = int
  type Request = int

  datatype Pending = Pending(key: KeyId, chunks: map<Uuid, Request>) // chunks not acknowledged yet
  datatype Issue = Issue(conv: Conv, chunks: set<Uuid>, deadline: int)
  datatype Ciphertext = Ciphertext(conv: Conv, key: KeyId)

  datatype Dist = Dist(
    pending: map<Conv, Pending>,
    chunkConv: map<Uuid, Conv>,
    requestConv: map<Request, Conv>,
    sends: map<Request, Uuid>,       // every send in flight, ordinary messages included
    deadlines: map<Request, int>,    // every tracked request
    timer: bool,                     // the sweep timer runs
    backoff: map<Conv, int>,
    active: map<Conv, KeyId>,        // keys in memory
    stored: map<Conv, KeyId>,        // the key last saved in the local store
    nextRequest: Request,
    nextUuid: Uuid,
    nextKey: KeyId,
    rec: Record
  )

  /** What was issued, acknowledged, given up and encrypted so far. */
  datatype Record = Record(issued: map<KeyId, Issue>, acked: set<Uuid>, dead: set<KeyId>, sent: seq<Ciphertext>)

  function Span(lo: int, n: nat): (r: set<int>)
    ensures forall x :: x in r <==> lo <= x < lo + n
  {
    if n == 0 then {} else Span(lo, n - 1) + {lo + n - 1}
  }

  function Initial(): Dist {
    Dist(map[], map[], map[], map[], map[], false, map[], map[], map[], 1, 1, 1, Record(map[], {}, {}, []))
  }

  /** The keys of the given conversations' distributions. */
  function KeysOf(s: Dist, convs: set<Conv>): set<KeyId> {
    set conv | conv in convs && conv in s.pending :: s.pending[conv].key
  }

  function RegisteredFor(table: map<int, Conv>, convs: set<Conv>): set<int> {
    set x | x in table && table[x] in convs
  }

  function RequestsOf(s: Dist, convs: set<Conv>): set<Request> {
    RegisteredFor(s.requestConv, convs)
  }

  function ChunksOf(s: Dist, convs: set<Conv>): set<Uuid> {
    RegisteredFor(s.chunkConv, convs)
  }

  /** The time before which a group's keys are not fetched again. */
  function RetryAt(convs: set<Conv>, until: int): map<Conv, int> {
    map conv | conv in convs :: until
  }

  /** Gives up the distributions of `convs`: their keys, and every trace of their open chunks. */
  function Fail(s: Dist, convs: set<Conv>, until: int): Dist {
    s.(pending := s.pending - convs,
       chunkConv := s.chunkConv - ChunksOf(s, convs),
       requestConv := s.requestConv - RequestsOf(s, convs),
       sends := s.sends - RequestsOf(s, convs),
       deadlines := s.deadlines - RequestsOf(s, convs),
       backoff := s.backoff + RetryAt(convs, until),
       rec := s.rec.(dead := s.rec.dead + KeysOf(s, convs)))
  }

  /** lo, lo + 1, ... mapped to first, first + 1, ... */
  function Numbered(lo: int, n: nat, first: int): map<int, int> {
    map x | x in Span(lo, n) :: first + (x - lo)
  }

  /** lo, lo + 1, ... all mapped to v. */
  function AllTo<V>(lo: int, n: nat, v: V): map<int, V> {
    map x | x in Span(lo, n) :: v
  }

  /** Registers n chunks of a new key in every table. */
  function Register(s: Dist, conv: Conv, n: nat, now: int): Dist {
    s.(pending := s.pending[conv := Pending(s.nextKey, Numbered(s.nextUuid, n, s.nextRequest))],
       chunkConv := s.chunkConv + AllTo(s.nextUuid, n, conv),
       requestConv := s.requestConv + AllTo(s.nextRequest, n, conv),
       sends := s.sends + Numbered(s.nextRequest, n, s.nextUuid),
       deadlines := s.deadlines + AllTo(s.nextRequest, n, now + IN_FLIGHT_TIMEOUT_MS),
       timer := true,
       nextRequest := s.nextRequest + n, nextUuid := s.nextUuid + n, nextKey := s.nextKey + 1,
       rec := s.rec.(issued := s.rec.issued[s.nextKey := Issue(conv, Span(s.nextUuid, n), now + IN_FLIGHT_TIMEOUT_MS)]))
  }

  /** Makes way for a new rotation: a distribution already under way is given up. */
  function MakeWay(s: Dist, conv: Conv, until: int): Dist {
    var t := if conv in s.pending then Fail(s, {conv}, until) else s;
    t.(backoff := t.backoff - {conv})
  }

  /** A new rotation replaces a distribution already under way. */
  function Begin(s: Dist, conv: Conv, n: nat, now: int, until: int): Dist {
    if conv <= 0 || n == 0 then s else Register(MakeWay(s, conv, until), conv, n, now)
  }

  /** All chunks are acknowledged: the key becomes the one in use. */
  function Commit(s: Dist, conv: Conv, storeOpen: bool): Dist {
    if conv !in s.pending then s
    else
      var key := s.pending[conv].key;
      s.(pending := s.pending - {conv},
         chunkConv := s.chunkConv - s.pending[conv].chunks.Keys,
         requestConv := s.requestConv - s.pending[conv].chunks.Values,
         backoff := s.backoff - {conv},
         stored := if storeOpen then s.stored[conv := key] else s.stored,
         active := s.active[conv := key])
  }

  function Forget(s: Dist, r: Request): Dist {
    s.(deadlines := s.deadlines - {r},
       timer := s.timer && (s.deadlines == map[] || s.deadlines - {r} != map[]))
  }

  /** One open chunk taken out of every table. */
  function Acknowledge(s: Dist, conv: Conv, c: Uuid, r: Request): Dist
    requires conv in s.pending
  {
    var t := Forget(s.(sends := s.sends - {r}), r);
    t.(chunkConv := t.chunkConv - {c}, requestConv := t.requestConv - {r}, rec := t.rec.(acked := t.rec.acked + {c}),
       pending := t.pending[conv := Pending(s.pending[conv].key, s.pending[conv].chunks - {c})])
  }

  /** The response to a send request; ordinary messages touch no distribution. */
  function Reply(s: Dist, r: Request, ok: bool, until: int, storeOpen: bool): Dist {
    if r !in s.sends then s
    else
      var chunk := s.sends[r];
      var t := Forget(s.(sends := s.sends - {r}), r);
      if chunk !in s.chunkConv then t
      else
        var conv := s.chunkConv[chunk];
        if !ok then Fail(t, {conv}, until)
        else
          var u := t.(chunkConv := t.chunkConv - {chunk}, requestConv := t.requestConv - {r}, rec := t.rec.(acked := t.rec.acked + {chunk}));
          if conv !in s.pending then u
          else
            var v := Acknowledge(s, conv, chunk, r);
            if v.pending[conv].chunks == map[] then Commit(v, conv, storeOpen) else v
  }

  function Expired(s: Dist, now: int): set<Request> {
    set r | r in s.deadlines && s.deadlines[r] <= now
  }

  /** Groups with a chunk among the given requests. */
  function Affected(s: Dist, requests: set<Request>): set<Conv> {
    set r | r in requests && r in s.requestConv :: s.requestConv[r]
  }

  function Sweep(s: Dist, now: int, until: int): Dist {
    var expired := Expired(s, now);
    var t := Fail(s, Affected(s, expired), until);
    t.(deadlines := t.deadlines - expired, timer := t.timer && t.deadlines - expired != map[])
  }

  /** The connection is lost: nothing in flight survives, and no key stays in memory. */
  function Discard(s: Dist): Dist {
    s.(pending := map[], chunkConv := map[], requestConv := map[], deadlines := map[], timer := false,
       backoff := map[], active := map[], rec := s.rec.(dead := s.rec.dead + KeysOf(s, s.pending.Keys)))
  }

  function Encrypt(s: Dist, conv: Conv, storeOpen: bool, works: bool): Dist {
    if conv <= 0 || conv in s.pending then s
    else if conv !in s.active && !(storeOpen && conv in s.stored) then s
    else
      var key := if conv in s.active then s.active[conv] else s.stored[conv];
      var t := s.(active := s.active[conv := key]);
      if !works then t
      else t.(stored := if storeOpen then t.stored[conv := key] else t.stored, rec := t.rec.(sent := t.rec.sent + [Ciphertext(conv, key)]))
  }

  datatype Event =
    | DistributionBuilt(conv: Conv, chunks: nat, now: int, until: int)
    | BuildFailed(conv: Conv, until: int)
    | Replied(request: Request, ok: bool, until: int, storeOpen: bool)
    | SweepDue(now: int, until: int)
    | Disconnected
    | LoggedOut                      // as Disconnected, but requests in flight stay registered
    | Encrypted(conv: Conv, storeOpen: bool, works: bool) // a message or an edit
    | SelfRemoved(conv: Conv)
    | LeftGroup(conv: Conv, storeOpen: bool)
    | OtherSend                      // an ordinary message is sent
    | OtherTracked(now: int)         // an edit, deletion or the like is sent

  function Step(s: Dist, e: Event): Dist {
    match e
    case DistributionBuilt(conv, n, now, until) => Begin(s, conv, n, now, until)
    case BuildFailed(conv, until) => Fail(s, {conv}, until)
    case Replied(r, ok, until, storeOpen) => Reply(s, r, ok, until, storeOpen)
    case SweepDue(now, until) => Sweep(s, now, until)
    case Disconnected => Discard(s).(sends := map[])
    case LoggedOut => Discard(s)
    case Encrypted(conv, storeOpen, works) => Encrypt(s, conv, storeOpen, works)
    case SelfRemoved(conv) => s.(active := s.active - {conv})
    case LeftGroup(conv, storeOpen) =>
      s.(active := s.active - {conv}, stored := if storeOpen then s.stored - {conv} else s.stored)
    case OtherSend =>
      s.(sends := s.sends[s.nextRequest := s.nextUuid], nextRequest := s.nextRequest + 1, nextUuid := s.nextUuid + 1)
    case OtherTracked(now) =>
      s.(deadlines := s.deadlines[s.nextRequest := now + IN_FLIGHT_TIMEOUT_MS], timer := true, nextRequest := s.nextRequest + 1)
  }

  function Run(es: seq<Event>): Dist {
    if es == [] then Initial() else Step(Run(es[..|es| - 1]), es[|es| - 1])
  }

  // ---- The tables agree ----

  predicate IsOpen(s: Dist, conv: Conv, c: Uuid, r: Request) {
    conv in s.pending && c in s.pending[conv].chunks && s.pending[conv].chunks[c] == r
  }

  predicate Registered(s: Dist, conv: Conv, c: Uuid, r: Request) {
    && c in s.chunkConv && s.chunkConv[c] == conv
    && r in s.requestConv && s.requestConv[r] == conv
    && r in s.sends && s.sends[r] == c
    && r in s.deadlines
  }

  /** An open chunk is in all four tables. */
  predicate OpenRegistered(s: Dist, conv: Conv, c: Uuid, r: Request) {
    IsOpen(s, conv, c, r) ==> Registered(s, conv, c, r)
  }

  /** No table knows a chunk that is not open; x is taken as a group, a chunk and a request. */
  predicate EntriesKnown(s: Dist, x: int) {
    ChunkKnown(s, x) && RequestKnown(s, x)
  }

  predicate ChunkKnown(s: Dist, x: int) {
    && (x in s.pending ==> x > 0 && s.pending[x].chunks != map[])
    && (x in s.chunkConv ==>
          x < s.nextUuid && s.chunkConv[x] in s.pending && x in s.pending[s.chunkConv[x]].chunks)
  }

  predicate RequestKnown(s: Dist, x: int) {
    && (x in s.requestConv ==> x in s.sends && IsOpen(s, s.requestConv[x], s.sends[x], x))
    && (x in s.sends && s.sends[x] in s.chunkConv ==> x in s.requestConv)
    && (x in s.sends ==> x < s.nextRequest && s.sends[x] < s.nextUuid)
    && (x in s.deadlines ==> x < s.nextRequest)
  }

  ghost predicate Coherent(s: Dist) {
    && (forall conv, c, r :: OpenRegistered(s, conv, c, r))
    && (forall x :: EntriesKnown(s, x))
    && (s.deadlines != map[] ==> s.timer)
  }

  lemma FailKeepsCoherent(s: Dist, convs: set<Conv>, until: int)
    requires Coherent(s)
    ensures Coherent(Fail(s, convs, until))
  {
    var t := Fail(s, convs, until);
    forall conv, c, r
      ensures OpenRegistered(t, conv, c, r)
    {
      assert OpenRegistered(s, conv, c, r);
    }
    forall x
      ensures EntriesKnown(t, x)
    {
      assert EntriesKnown(s, x);
      if x in s.requestConv {
        assert OpenRegistered(s, s.requestConv[x], s.sends[x], x);
      }
    }
  }

  lemma BackoffKeepsCoherent(s: Dist, conv: Conv)
    requires Coherent(s)
    ensures Coherent(s.(backoff := s.backoff - {conv}))
  {
    hide Coherent;
    SameTablesCoherent(s, s.(backoff := s.backoff - {conv}));
  }

  lemma MakeWayKeepsCoherent(s: Dist, conv: Conv, until: int)
    requires Coherent(s)
    ensures Coherent(MakeWay(s, conv, until)) && conv !in MakeWay(s, conv, until).pending
  {
    FailKeepsCoherent(s, {conv}, until);
    assert conv !in Fail(s, {conv}, until).pending;
    hide Coherent, Fail;
    BackoffKeepsCoherent(if conv in s.pending then Fail(s, {conv}, until) else s, conv);
  }

  lemma BeginKeepsCoherent(s: Dist, conv: Conv, n: nat, now: int, until: int)
    requires Coherent(s)
    ensures Coherent(Begin(s, conv, n, now, until))
  {
    hide Register, MakeWay, Coherent;
    if conv > 0 && n > 0 {
      MakeWayKeepsCoherent(s, conv, until);
      RegisterKeepsCoherent(MakeWay(s, conv, until), conv, n, now);
    }
  }

  lemma RegisterKeepsCoherent(t: Dist, conv: Conv, n: nat, now: int)
    requires Coherent(t) && conv > 0 && n > 0 && conv !in t.pending
    ensures Coherent(Register(t, conv, n, now))
  {
    var u := Register(t, conv, n, now);
    assert t.nextUuid in u.pending[conv].chunks;
    hide Register;
    forall conv', c, r
      ensures OpenRegistered(u, conv', c, r)
    {
      AddedRegistered(t, conv, n, now, conv', c, r);
    }
    forall x
      ensures EntriesKnown(u, x)
    {
      AddedKnown(t, conv, n, now, x);
    }
    assert u.timer by {
      assert Register(t, conv, n, now).timer;
    }
  }

  lemma AddedRegistered(t: Dist, conv: Conv, n: nat, now: int, conv': Conv, c: Uuid, r: Request)
    requires Coherent(t) && conv > 0 && n > 0 && conv !in t.pending
    ensures OpenRegistered(Register(t, conv, n, now), conv', c, r)
  {
    hide Span, Register, EntriesKnown, OpenRegistered;
    assert OpenRegistered(t, conv', c, r) && EntriesKnown(t, r);
    if conv' == conv {
      AddedNewestRegistered(t, conv, n, now, c, r);
    } else {
      AddedOldRegistered(t, conv, n, now, conv', c, r);
    }
  }

  lemma AddedNewestRegistered(t: Dist, conv: Conv, n: nat, now: int, c: Uuid, r: Request)
    ensures OpenRegistered(Register(t, conv, n, now), conv, c, r)
  {
    hide Span;
  }

  lemma AddedOldRegistered(t: Dist, conv: Conv, n: nat, now: int, conv': Conv, c: Uuid, r: Request)
    requires OpenRegistered(t, conv', c, r) && EntriesKnown(t, r) && conv' != conv
    ensures OpenRegistered(Register(t, conv, n, now), conv', c, r)
  {
    hide Span;
  }

  lemma AddedKnown(t: Dist, conv: Conv, n: nat, now: int, x: int)
    requires Coherent(t) && conv > 0 && n > 0 && conv !in t.pending
    ensures EntriesKnown(Register(t, conv, n, now), x)
  {
    assert EntriesKnown(t, x);
    hide Coherent, Span, Register;
    AddedChunkKnown(t, conv, n, now, x);
    if x in Span(t.nextRequest, n) {
      AddedRequestKnown(t, conv, n, now, x);
    } else {
      OldRequestKnown(t, conv, n, now, x);
    }
  }

  lemma AddedChunkKnown(t: Dist, conv: Conv, n: nat, now: int, x: int)
    requires ChunkKnown(t, x) && conv > 0 && n > 0 && conv !in t.pending
    ensures ChunkKnown(Register(t, conv, n, now), x)
  {
    hide Span;
    var u := Register(t, conv, n, now);
    assert u.pending[conv].chunks.Keys == Span(t.nextUuid, n) && t.nextUuid in Span(t.nextUuid, n);
    assert u.chunkConv.Keys == t.chunkConv.Keys + Span(t.nextUuid, n);
    assert x in Span(t.nextUuid, n) ==> u.chunkConv[x] == conv;
    assert x !in Span(t.nextUuid, n) && x in t.chunkConv ==> u.chunkConv[x] == t.chunkConv[x] != conv;
    hide AllTo, Numbered;
  }

  lemma AddedRequestKnown(t: Dist, conv: Conv, n: nat, now: int, x: int)
    requires conv > 0 && conv !in t.pending && x in Span(t.nextRequest, n)
    ensures RequestKnown(Register(t, conv, n, now), x)
  {
    hide Span, IsOpen;
    var u := Register(t, conv, n, now);
    assert u.sends[x] == t.nextUuid + (x - t.nextRequest) && u.sends[x] in Span(t.nextUuid, n);
    NewestIsOpen(t, conv, n, now, u.sends[x]);
    assert u.requestConv[x] == conv;
  }

  lemma NewestIsOpen(t: Dist, conv: Conv, n: nat, now: int, c: Uuid)
    requires c in Span(t.nextUuid, n)
    ensures IsOpen(Register(t, conv, n, now), conv, c, t.nextRequest + (c - t.nextUuid))
  {
    hide Span, AllTo;
  }

  lemma OldRequestKnown(t: Dist, conv: Conv, n: nat, now: int, x: int)
    requires RequestKnown(t, x) && conv > 0 && n > 0 && conv !in t.pending && x !in Span(t.nextRequest, n)
    ensures RequestKnown(Register(t, conv, n, now), x)
  {
    hide Span;
    var u := Register(t, conv, n, now);
    assert x in u.requestConv ==> x in t.requestConv && u.requestConv[x] == t.requestConv[x] != conv;
    assert x in u.sends ==> x in t.sends && u.sends[x] == t.sends[x] && u.sends[x] !in Span(t.nextUuid, n);
  }

  /** A send registered as a chunk is the open chunk of its own request. */
  lemma OpenSend(s: Dist, r: Request)
    requires Coherent(s) && r in s.sends && s.sends[r] in s.chunkConv
    ensures IsOpen(s, s.chunkConv[s.sends[r]], s.sends[r], r)
    ensures Registered(s, s.chunkConv[s.sends[r]], s.sends[r], r)
  {
    assert EntriesKnown(s, r);
    assert OpenRegistered(s, s.requestConv[r], s.sends[r], r);
  }

  lemma AcknowledgeKeepsCoherent(s: Dist, conv: Conv, c: Uuid, r: Request)
    requires Coherent(s) && IsOpen(s, conv, c, r) && s.pending[conv].chunks - {c} != map[]
    ensures Coherent(Acknowledge(s, conv, c, r))
  {
    var t := Acknowledge(s, conv, c, r);
    assert OpenRegistered(s, conv, c, r);
    forall conv', c', q
      ensures OpenRegistered(t, conv', c', q)
    {
      assert OpenRegistered(s, conv', c', q);
    }
    forall x
      ensures EntriesKnown(t, x)
    {
      assert EntriesKnown(s, x);
    }
  }

  /** The same as far as the tables' agreement goes. */
  predicate SameTables(s: Dist, t: Dist) {
    && s.pending == t.pending && s.chunkConv == t.chunkConv && s.requestConv == t.requestConv
    && s.sends == t.sends && s.deadlines == t.deadlines
    && s.nextRequest == t.nextRequest && s.nextUuid == t.nextUuid
  }

  lemma SameTablesCoherent(s: Dist, t: Dist)
    requires Coherent(s) && SameTables(s, t) && (t.timer == s.timer || (t.deadlines != map[] ==> t.timer))
    ensures Coherent(t)
  {
    forall conv, c, r
      ensures OpenRegistered(t, conv, c, r)
    {
      assert OpenRegistered(s, conv, c, r);
    }
    forall x
      ensures EntriesKnown(t, x)
    {
      assert EntriesKnown(s, x);
    }
  }

  /** The chunks and requests registered for a group are exactly its open ones. */
  lemma RegisteredAreOpen(s: Dist, conv: Conv)
    requires Coherent(s) && conv in s.pending
    ensures ChunksOf(s, {conv}) == s.pending[conv].chunks.Keys
    ensures RequestsOf(s, {conv}) == s.pending[conv].chunks.Values
  {
    var chunks := s.pending[conv].chunks;
    forall c
      ensures c in ChunksOf(s, {conv}) <==> c in chunks
    {
      assert EntriesKnown(s, c);
      if c in chunks {
        assert OpenRegistered(s, conv, c, chunks[c]);
      }
    }
    forall r
      ensures r in RequestsOf(s, {conv}) <==> r in chunks.Values
    {
      if r in RequestsOf(s, {conv}) {
        assert EntriesKnown(s, r);
        assert s.sends[r] in chunks;
      }
      if r in chunks.Values {
        var c := Preimage(chunks, r);
        assert OpenRegistered(s, conv, c, r);
      }
    }
  }

  /** A refused chunk clears the tables of the group's distribution. */
  lemma RefusalEndsDistribution(s: Dist, r: Request, until: int, storeOpen: bool)
    requires Coherent(s) && r in s.sends && s.sends[r] in s.chunkConv
    ensures SameTables(Fail(s, {s.chunkConv[s.sends[r]]}, until), Reply(s, r, false, until, storeOpen))
  {
    OpenSend(s, r);
    var requests := RequestsOf(s, {s.chunkConv[s.sends[r]]});
    assert r in requests;
    hide Coherent, IsOpen, Registered;
    assert s.sends - {r} - requests == s.sends - requests;
    assert s.deadlines - {r} - requests == s.deadlines - requests;
  }

  /** So does the acknowledgement of its last chunk. */
  lemma LastAckEndsDistribution(s: Dist, r: Request, until: int, storeOpen: bool)
    requires Coherent(s) && r in s.sends && s.sends[r] in s.chunkConv
    requires var conv := s.chunkConv[s.sends[r]];
             conv in s.pending && s.pending[conv].chunks - {s.sends[r]} == map[]
    ensures SameTables(Fail(s, {s.chunkConv[s.sends[r]]}, until), Reply(s, r, true, until, storeOpen))
  {
    var c := s.sends[r];
    var conv := s.chunkConv[c];
    OpenSend(s, r);
    RegisteredAreOpen(s, conv);
    var chunks := s.pending[conv].chunks;
    assert chunks == (chunks - {c})[c := r];
    assert ChunksOf(s, {conv}) == {c} && RequestsOf(s, {conv}) == {r};
    hide Coherent, IsOpen, Registered, RequestsOf, ChunksOf, KeysOf;
    var v := Acknowledge(s, conv, c, r);
    assert Reply(s, r, true, until, storeOpen) == Commit(v, conv, storeOpen) by {
      hide Commit, Fail;
    }
    hide Reply;
    LastCommitTables(s, conv, c, r, until, storeOpen);
  }

  /** The tables once a group's only open chunk, and its distribution, are gone from them. */
  predicate TablesWithout(s: Dist, conv: Conv, c: Uuid, r: Request, t: Dist) {
    && t.pending == s.pending - {conv} && t.chunkConv == s.chunkConv - {c} && t.requestConv == s.requestConv - {r}
    && t.sends == s.sends - {r} && t.deadlines == s.deadlines - {r}
    && t.nextRequest == s.nextRequest && t.nextUuid == s.nextUuid
  }

  lemma LastFailTables(s: Dist, conv: Conv, c: Uuid, r: Request, until: int)
    requires ChunksOf(s, {conv}) == {c} && RequestsOf(s, {conv}) == {r}
    ensures TablesWithout(s, conv, c, r, Fail(s, {conv}, until))
  {
    hide RequestsOf, ChunksOf, KeysOf, RetryAt;
  }

  lemma LastAckTables(s: Dist, conv: Conv, c: Uuid, r: Request, storeOpen: bool)
    requires conv in s.pending && s.pending[conv].chunks - {c} == map[]
    ensures TablesWithout(s, conv, c, r, Commit(Acknowledge(s, conv, c, r), conv, storeOpen))
  {
    var v := Acknowledge(s, conv, c, r);
    assert v.pending - {conv} == s.pending - {conv};
    assert v.chunkConv - {} == v.chunkConv && v.requestConv - {} == v.requestConv;
  }

  lemma LastCommitTables(s: Dist, conv: Conv, c: Uuid, r: Request, until: int, storeOpen: bool)
    requires conv in s.pending && s.pending[conv].chunks - {c} == map[]
    requires ChunksOf(s, {conv}) == {c} && RequestsOf(s, {conv}) == {r}
    ensures SameTables(Fail(s, {conv}, until), Commit(Acknowledge(s, conv, c, r), conv, storeOpen))
  {
    hide Fail, Acknowledge, Commit;
    LastFailTables(s, conv, c, r, until);
    LastAckTables(s, conv, c, r, storeOpen);
  }

  lemma ReplyKeepsCoherent(s: Dist, r: Request, ok: bool, until: int, storeOpen: bool)
    requires Coherent(s)
    ensures Coherent(Reply(s, r, ok, until, storeOpen))
  {
    if r in s.sends && s.sends[r] in s.chunkConv {
      var c := s.sends[r];
      var conv := s.chunkConv[c];
      OpenSend(s, r);
      if !ok || s.pending[conv].chunks - {c} == map[] {
        if ok {
          LastAckEndsDistribution(s, r, until, storeOpen);
        } else {
          RefusalEndsDistribution(s, r, until, storeOpen);
        }
        FailKeepsCoherent(s, {conv}, until);
        hide Coherent;
        assert s.deadlines != map[] ==> s.timer by {
          assert Coherent(s);
        }
        SameTablesCoherent(Fail(s, {conv}, until), Reply(s, r, ok, until, storeOpen));
      } else {
        AcknowledgeKeepsCoherent(s, conv, c, r);
        assert Reply(s, r, ok, until, storeOpen) == Acknowledge(s, conv, c, r);
      }
    } else if r in s.sends {
      OrdinaryReplyKeepsCoherent(s, r);
    }
  }

  lemma OrdinaryReplyKeepsCoherent(s: Dist, r: Request)
    requires Coherent(s) && r in s.sends && s.sends[r] !in s.chunkConv
    ensures Coherent(Forget(s.(sends := s.sends - {r}), r))
  {
    var t := Forget(s.(sends := s.sends - {r}), r);
    forall conv, c, q
      ensures OpenRegistered(t, conv, c, q)
    {
      assert OpenRegistered(s, conv, c, q);
    }
    forall x
      ensures EntriesKnown(t, x)
    {
      assert EntriesKnown(s, x);
      if x in s.requestConv {
        assert OpenRegistered(s, s.requestConv[x], s.sends[x], x);
      }
    }
  }

  lemma SweepKeepsCoherent(s: Dist, now: int, until: int)
    requires Coherent(s)
    ensures Coherent(Sweep(s, now, until))
  {
    var expired := Expired(s, now);
    var t := Fail(s, Affected(s, expired), until);
    var u := Sweep(s, now, until);
    FailKeepsCoherent(s, Affected(s, expired), until);
    forall conv, c, r
      ensures OpenRegistered(u, conv, c, r)
    {
      assert OpenRegistered(t, conv, c, r) && OpenRegistered(s, conv, c, r);
    }
    forall x
      ensures EntriesKnown(u, x)
    {
      assert EntriesKnown(t, x);
    }
  }

  lemma DiscardKeepsCoherent(s: Dist, sends: map<Request, Uuid>)
    requires Coherent(s) && (sends == Discard(s).sends || sends == map[])
    ensures Coherent(Discard(s).(sends := sends))
  {
    var t := Discard(s).(sends := sends);
    forall x
      ensures EntriesKnown(t, x)
    {
      assert EntriesKnown(s, x);
    }
  }

  lemma OtherRequestKeepsCoherent(s: Dist, e: Event)
    requires Coherent(s) && (e.OtherSend? || e.OtherTracked?)
    ensures Coherent(Step(s, e))
  {
    var t := Step(s, e);
    assert EntriesKnown(s, s.nextUuid);
    forall conv, c, r
      ensures OpenRegistered(t, conv, c, r)
    {
      assert OpenRegistered(s, conv, c, r) && EntriesKnown(s, r);
    }
    forall x
      ensures EntriesKnown(t, x)
    {
      assert EntriesKnown(s, x);
    }
  }

  lemma EncryptKeepsTables(s: Dist, conv: Conv, storeOpen: bool, works: bool)
    ensures SameTables(s, Encrypt(s, conv, storeOpen, works)) && Encrypt(s, conv, storeOpen, works).timer == s.timer
  {
  }

  /** Encrypting, leaving or being removed touch the keys only. */
  lemma KeyStepKeepsTables(s: Dist, e: Event)
    requires e.Encrypted? || e.SelfRemoved? || e.LeftGroup?
    ensures SameTables(s, Step(s, e)) && Step(s, e).timer == s.timer
  {
    hide Fail, Begin, Reply, Sweep, Discard, Encrypt;
    if e.Encrypted? {
      EncryptKeepsTables(s, e.conv, e.storeOpen, e.works);
    }
  }

  lemma StepKeepsCoherent(s: Dist, e: Event)
    requires Coherent(s)
    ensures Coherent(Step(s, e))
  {
    hide Coherent, Fail, Begin, Reply, Sweep, Discard, Encrypt;
    match e {
      case DistributionBuilt(conv, n, now, until) => BeginKeepsCoherent(s, conv, n, now, until);
      case BuildFailed(conv, until) => FailKeepsCoherent(s, {conv}, until);
      case Replied(r, ok, until, storeOpen) => ReplyKeepsCoherent(s, r, ok, until, storeOpen);
      case SweepDue(now, until) => SweepKeepsCoherent(s, now, until);
      case Disconnected => DiscardKeepsCoherent(s, map[]);
      case LoggedOut => DiscardKeepsCoherent(s, Discard(s).sends);
      case OtherSend => OtherRequestKeepsCoherent(s, e);
      case OtherTracked(_) => OtherRequestKeepsCoherent(s, e);
      case _ =>
        KeyStepKeepsTables(s, e);
        SameTablesCoherent(s, Step(s, e));
    }
  }

  // ---- Only acknowledged keys are used ----

  /** `key` was issued for `conv`, every chunk of it was acknowledged, and it was never given up. */
  predicate Committed(s: Dist, conv: Conv, key: KeyId) {
    && key in s.rec.issued && s.rec.issued[key].conv == conv && s.rec.issued[key].chunks <= s.rec.acked
    && key !in s.rec.dead
  }

  /** A distribution's open chunks are those of its key not acknowledged yet, all due at the same time. */
  ghost predicate Awaiting(s: Dist, conv: Conv, key: KeyId, chunks: map<Uuid, Request>) {
    && key in s.rec.issued && s.rec.issued[key].conv == conv && key !in s.rec.dead
    && chunks.Keys == s.rec.issued[key].chunks - s.rec.acked
    && forall c :: c in chunks ==> chunks[c] in s.deadlines && s.deadlines[chunks[c]] == s.rec.issued[key].deadline
  }

  predicate GroupKnown(s: Dist, conv: Conv) {
    && (conv in s.active ==> Committed(s, conv, s.active[conv]))
    && (conv in s.stored ==> Committed(s, conv, s.stored[conv]))
  }

  ghost predicate Recorded(s: Dist) {
    && (forall conv :: conv in s.pending ==> Awaiting(s, conv, s.pending[conv].key, s.pending[conv].chunks))
    && (forall conv :: GroupKnown(s, conv))
    && (forall e :: e in s.rec.sent ==> Committed(s, e.conv, e.key))
    && (forall k :: k in s.rec.issued ==> k < s.nextKey && forall c :: c in s.rec.issued[k].chunks ==> c < s.nextUuid)
    && (forall k :: k in s.rec.dead ==> k in s.rec.issued)
    && (forall c :: c in s.rec.acked ==> c < s.nextUuid)
  }

  /** A key whose distribution is still open has not been acknowledged in full. */
  lemma OpenKeyUncommitted(s: Dist, conv: Conv, conv': Conv)
    requires Coherent(s) && Recorded(s) && conv in s.pending
    ensures !Committed(s, conv', s.pending[conv].key)
  {
    assert EntriesKnown(s, conv);
    var c := Member(s.pending[conv].chunks.Keys);
    assert c in s.pending[conv].chunks.Keys;
  }

  lemma FailKeepsCommitted(s: Dist, convs: set<Conv>, until: int, conv: Conv, key: KeyId)
    requires Coherent(s) && Recorded(s) && Committed(s, conv, key)
    ensures Committed(Fail(s, convs, until), conv, key)
  {
    forall conv' | conv' in convs && conv' in s.pending
      ensures s.pending[conv'].key != key
    {
      OpenKeyUncommitted(s, conv', conv);
    }
  }

  lemma FailKeepsAwaiting(s: Dist, convs: set<Conv>, until: int, conv: Conv)
    requires Coherent(s) && Recorded(s) && conv in s.pending && conv !in convs
    ensures Awaiting(Fail(s, convs, until), conv, s.pending[conv].key, s.pending[conv].chunks)
  {
    var chunks := s.pending[conv].chunks;
    assert Awaiting(s, conv, s.pending[conv].key, chunks);
    forall c | c in chunks
      ensures chunks[c] !in RequestsOf(s, convs)
    {
      assert OpenRegistered(s, conv, c, chunks[c]);
    }
    forall conv' | conv' in convs && conv' in s.pending
      ensures s.pending[conv'].key != s.pending[conv].key
    {
      assert Awaiting(s, conv', s.pending[conv'].key, s.pending[conv'].chunks);
    }
  }

  lemma FailKeepsRecorded(s: Dist, convs: set<Conv>, until: int)
    requires Coherent(s) && Recorded(s)
    ensures Recorded(Fail(s, convs, until))
  {
    var t := Fail(s, convs, until);
    forall k | k in t.rec.dead
      ensures k in t.rec.issued
    {
      if k !in s.rec.dead {
        var conv :| conv in convs && conv in s.pending && s.pending[conv].key == k;
        assert Awaiting(s, conv, k, s.pending[conv].chunks);
      }
    }
    forall conv | conv in t.pending
      ensures Awaiting(t, conv, t.pending[conv].key, t.pending[conv].chunks)
    {
      FailKeepsAwaiting(s, convs, until, conv);
    }
    forall conv
      ensures GroupKnown(t, conv)
    {
      assert GroupKnown(s, conv);
      if conv in s.active {
        FailKeepsCommitted(s, convs, until, conv, s.active[conv]);
      }
      if conv in s.stored {
        FailKeepsCommitted(s, convs, until, conv, s.stored[conv]);
      }
    }
    forall e | e in t.rec.sent
      ensures Committed(t, e.conv, e.key)
    {
      FailKeepsCommitted(s, convs, until, e.conv, e.key);
    }
  }

  /** The chunks numbered lo, lo + 1, ... have requests that the second table maps to v. */
  lemma NumberedLeadsTo(lo: int, n: nat, first: int, table: map<int, int>, v: int, c: int)
    requires c in Numbered(lo, n, first)
    ensures c in Span(lo, n) && Numbered(lo, n, first)[c] in table + AllTo(first, n, v)
    ensures (table + AllTo(first, n, v))[Numbered(lo, n, first)[c]] == v
  {
  }

  lemma RegisteredAwaits(s: Dist, conv: Conv, n: nat, now: int)
    requires Recorded(s) && conv !in s.pending
    ensures var t := Register(s, conv, n, now); Awaiting(t, conv, t.pending[conv].key, t.pending[conv].chunks)
  {
    var t := Register(s, conv, n, now);
    var due := now + IN_FLIGHT_TIMEOUT_MS;
    assert s.nextKey !in s.rec.dead;
    assert Span(s.nextUuid, n) - s.rec.acked == Span(s.nextUuid, n);
    hide Recorded, Span;
    assert t.pending[conv].chunks.Keys == Span(s.nextUuid, n);
    hide AllTo, Numbered;
    forall c | c in t.pending[conv].chunks
      ensures t.pending[conv].chunks[c] in t.deadlines && t.deadlines[t.pending[conv].chunks[c]] == due
    {
      NumberedLeadsTo(s.nextUuid, n, s.nextRequest, s.deadlines, due, c);
    }
  }

  lemma OthersStillAwait(s: Dist, conv: Conv, n: nat, now: int, conv': Conv)
    requires Coherent(s) && Recorded(s) && conv' in s.pending && conv' != conv
    ensures Awaiting(Register(s, conv, n, now), conv', s.pending[conv'].key, s.pending[conv'].chunks)
  {
    hide Span;
    var t := Register(s, conv, n, now);
    var chunks := s.pending[conv'].chunks;
    assert Awaiting(s, conv', s.pending[conv'].key, chunks);
    forall c | c in chunks
      ensures chunks[c] in t.deadlines && t.deadlines[chunks[c]] == s.deadlines[chunks[c]]
    {
      assert EntriesKnown(s, chunks[c]);
    }
  }

  lemma RegisterKeepsRecorded(s: Dist, conv: Conv, n: nat, now: int)
    requires Coherent(s) && Recorded(s) && conv !in s.pending
    ensures Recorded(Register(s, conv, n, now))
  {
    hide Span;
    var t := Register(s, conv, n, now);
    assert forall c :: c in t.rec.issued[s.nextKey].chunks ==> c < t.nextUuid;
    forall conv'
      ensures GroupKnown(t, conv')
    {
      assert GroupKnown(s, conv');
    }
    forall conv' | conv' in t.pending
      ensures Awaiting(t, conv', t.pending[conv'].key, t.pending[conv'].chunks)
    {
      if conv' == conv {
        RegisteredAwaits(s, conv, n, now);
      } else {
        OthersStillAwait(s, conv, n, now, conv');
      }
    }
    hide Coherent;
  }

  lemma BackoffKeepsRecorded(s: Dist, conv: Conv)
    requires Recorded(s)
    ensures Recorded(s.(backoff := s.backoff - {conv}))
  {
    hide Recorded;
    SameRecord(s, s.(backoff := s.backoff - {conv}));
  }

  lemma MakeWayKeepsRecorded(s: Dist, conv: Conv, until: int)
    requires Coherent(s) && Recorded(s)
    ensures Recorded(MakeWay(s, conv, until))
  {
    FailKeepsRecorded(s, {conv}, until);
    hide Coherent, Recorded, Fail;
    BackoffKeepsRecorded(if conv in s.pending then Fail(s, {conv}, until) else s, conv);
  }

  lemma BeginKeepsRecorded(s: Dist, conv: Conv, n: nat, now: int, until: int)
    requires Coherent(s) && Recorded(s)
    ensures Recorded(Begin(s, conv, n, now, until))
  {
    hide Register, MakeWay, Coherent, Recorded;
    if conv > 0 && n > 0 {
      MakeWayKeepsCoherent(s, conv, until);
      MakeWayKeepsRecorded(s, conv, until);
      RegisterKeepsRecorded(MakeWay(s, conv, until), conv, n, now);
    }
  }

  /** The record depends on nothing but these parts. */
  lemma SameRecord(s: Dist, t: Dist)
    requires Recorded(s)
    requires s.pending == t.pending && s.active == t.active && s.stored == t.stored
    requires s.rec == t.rec
    requires s.nextKey == t.nextKey && s.nextUuid == t.nextUuid
    requires forall conv, c, r :: IsOpen(s, conv, c, r) && r in s.deadlines ==>
               r in t.deadlines && t.deadlines[r] == s.deadlines[r]
    ensures Recorded(t)
  {
    forall conv | conv in t.pending
      ensures Awaiting(t, conv, t.pending[conv].key, t.pending[conv].chunks)
    {
      var chunks := s.pending[conv].chunks;
      assert Awaiting(s, conv, s.pending[conv].key, chunks);
      forall c | c in chunks
        ensures chunks[c] in t.deadlines && t.deadlines[chunks[c]] == s.deadlines[chunks[c]]
      {
        assert IsOpen(s, conv, c, chunks[c]);
      }
    }
    forall conv
      ensures GroupKnown(t, conv)
    {
      assert GroupKnown(s, conv);
    }
  }

  lemma AcknowledgeKeepsAwaiting(s: Dist, conv: Conv, c: Uuid, r: Request, conv': Conv)
    requires Coherent(s) && Recorded(s) && IsOpen(s, conv, c, r) && conv' in s.pending
    ensures var t := Acknowledge(s, conv, c, r); Awaiting(t, conv', t.pending[conv'].key, t.pending[conv'].chunks)
  {
    var t := Acknowledge(s, conv, c, r);
    var chunks := s.pending[conv'].chunks;
    assert Awaiting(s, conv', s.pending[conv'].key, chunks);
    assert OpenRegistered(s, conv, c, r);
    forall c' | c' in chunks && (conv' != conv || c' != c)
      ensures c' != c && chunks[c'] != r
    {
      assert OpenRegistered(s, conv', c', chunks[c']);
    }
    hide Coherent, Recorded;
    assert t.pending[conv'].chunks.Keys == chunks.Keys - {c};
  }

  lemma AcknowledgeKeepsRecorded(s: Dist, conv: Conv, c: Uuid, r: Request)
    requires Coherent(s) && Recorded(s) && IsOpen(s, conv, c, r)
    ensures Recorded(Acknowledge(s, conv, c, r))
  {
    var t := Acknowledge(s, conv, c, r);
    assert EntriesKnown(s, c) && OpenRegistered(s, conv, c, r);
    hide Coherent, Awaiting, EntriesKnown;
    forall conv' | conv' in t.pending
      ensures Awaiting(t, conv', t.pending[conv'].key, t.pending[conv'].chunks)
    {
      AcknowledgeKeepsAwaiting(s, conv, c, r, conv');
    }
    forall conv'
      ensures GroupKnown(t, conv')
    {
      assert GroupKnown(s, conv');
    }
  }

  lemma CommitKeepsRecorded(s: Dist, conv: Conv, storeOpen: bool)
    requires Recorded(s) && conv in s.pending && s.pending[conv].chunks == map[]
    ensures Recorded(Commit(s, conv, storeOpen))
    ensures Committed(Commit(s, conv, storeOpen), conv, s.pending[conv].key)
  {
    var t := Commit(s, conv, storeOpen);
    assert Awaiting(s, conv, s.pending[conv].key, s.pending[conv].chunks);
    var all := s.rec.issued[s.pending[conv].key].chunks;
    assert all - s.rec.acked == {} && all == (all - s.rec.acked) + (all * s.rec.acked);
    assert Committed(s, conv, s.pending[conv].key);
    forall conv' | conv' in t.pending
      ensures Awaiting(t, conv', t.pending[conv'].key, t.pending[conv'].chunks)
    {
      assert Awaiting(s, conv', s.pending[conv'].key, s.pending[conv'].chunks);
    }
    forall conv'
      ensures GroupKnown(t, conv')
    {
      assert GroupKnown(s, conv');
    }
  }

  lemma RefusalIsFail(s: Dist, r: Request, until: int, storeOpen: bool)
    requires Coherent(s) && r in s.sends && s.sends[r] in s.chunkConv
    ensures Reply(s, r, false, until, storeOpen)
         == Fail(s, {s.chunkConv[s.sends[r]]}, until).(timer := Reply(s, r, false, until, storeOpen).timer)
  {
    RefusalEndsDistribution(s, r, until, storeOpen);
  }

  lemma ReplyKeepsRecorded(s: Dist, r: Request, ok: bool, until: int, storeOpen: bool)
    requires Coherent(s) && Recorded(s)
    ensures Recorded(Reply(s, r, ok, until, storeOpen))
  {
    if r in s.sends {
      var c := s.sends[r];
      var u := Reply(s, r, ok, until, storeOpen);
      if c in s.chunkConv {
        var conv := s.chunkConv[c];
        OpenSend(s, r);
        if ok {
          AcknowledgeKeepsRecorded(s, conv, c, r);
          var v := Acknowledge(s, conv, c, r);
          if v.pending[conv].chunks == map[] {
            CommitKeepsRecorded(v, conv, storeOpen);
          }
        } else {
          RefusalIsFail(s, r, until, storeOpen);
          FailKeepsRecorded(s, {conv}, until);
          SameRecord(Fail(s, {conv}, until), u);
        }
      } else {
        forall conv, c'
          ensures !IsOpen(s, conv, c', r)
        {
          assert OpenRegistered(s, conv, c', r);
        }
        SameRecord(s, u);
      }
    }
  }

  lemma SweepKeepsRecorded(s: Dist, now: int, until: int)
    requires Coherent(s) && Recorded(s)
    ensures Recorded(Sweep(s, now, until))
  {
    var convs := Affected(s, Expired(s, now));
    var t := Fail(s, convs, until);
    var u := Sweep(s, now, until);
    FailKeepsRecorded(s, convs, until);
    FailKeepsCoherent(s, convs, until);
    forall conv, c, r | IsOpen(t, conv, c, r) && r in t.deadlines
      ensures r !in Expired(s, now)
    {
      assert OpenRegistered(s, conv, c, r);
    }
    hide Fail, Affected, Expired;
    SameRecord(t, u);
  }

  lemma EncryptKeepsRecorded(s: Dist, conv: Conv, storeOpen: bool, works: bool)
    requires Recorded(s)
    ensures Recorded(Encrypt(s, conv, storeOpen, works))
  {
    var t := Encrypt(s, conv, storeOpen, works);
    EncryptKeepsCommitted(s, conv, storeOpen, works);
    hide GroupKnown, Committed, Encrypt;
    forall conv' | conv' in t.pending
      ensures Awaiting(t, conv', t.pending[conv'].key, t.pending[conv'].chunks)
    {
      assert Awaiting(s, conv', s.pending[conv'].key, s.pending[conv'].chunks);
    }
  }

  /** Encrypting changes keys, all of them committed, and adds at most one ciphertext under such a key. */
  lemma EncryptKeepsCommitted(s: Dist, conv: Conv, storeOpen: bool, works: bool)
    requires Recorded(s)
    ensures var t := Encrypt(s, conv, storeOpen, works);
            && t.pending == s.pending && t.deadlines == s.deadlines && t.nextKey == s.nextKey && t.nextUuid == s.nextUuid
            && t.rec == s.rec.(sent := t.rec.sent)
            && (forall conv' :: GroupKnown(t, conv'))
            && (forall e :: e in t.rec.sent ==> Committed(t, e.conv, e.key))
  {
    hide Awaiting;
    var t := Encrypt(s, conv, storeOpen, works);
    assert GroupKnown(s, conv);
    forall conv'
      ensures GroupKnown(t, conv')
    {
      assert GroupKnown(s, conv');
    }
  }

  /** Losing the connection: keys in memory go, open distributions are given up. */
  lemma DiscardKeepsRecorded(s: Dist, sends: map<Request, Uuid>)
    requires Coherent(s) && Recorded(s)
    ensures Recorded(Discard(s).(sends := sends))
  {
    var t := Discard(s).(sends := sends);
    forall conv, key | Committed(s, conv, key)
      ensures Committed(t, conv, key)
    {
      forall conv' | conv' in s.pending
        ensures s.pending[conv'].key != key
      {
        OpenKeyUncommitted(s, conv', conv);
      }
    }
    forall conv
      ensures GroupKnown(t, conv)
    {
      assert GroupKnown(s, conv);
    }
    forall k | k in t.rec.dead
      ensures k in t.rec.issued
    {
      if k !in s.rec.dead {
        var conv :| conv in s.pending && s.pending[conv].key == k;
        assert Awaiting(s, conv, k, s.pending[conv].chunks);
      }
    }
  }

  lemma OtherRequestKeepsRecorded(s: Dist, e: Event)
    requires Coherent(s) && Recorded(s) && (e.OtherSend? || e.OtherTracked?)
    ensures Recorded(Step(s, e))
  {
    var t := Step(s, e);
    hide Fail, Begin, Reply, Sweep, Discard, Encrypt;
    forall conv | conv in t.pending
      ensures Awaiting(t, conv, t.pending[conv].key, t.pending[conv].chunks)
    {
      var chunks := s.pending[conv].chunks;
      assert Awaiting(s, conv, s.pending[conv].key, chunks);
      forall c | c in chunks
        ensures chunks[c] in t.deadlines && t.deadlines[chunks[c]] == s.deadlines[chunks[c]]
      {
        assert EntriesKnown(s, chunks[c]);
      }
    }
    forall conv
      ensures GroupKnown(t, conv)
    {
      assert GroupKnown(s, conv);
    }
  }

  lemma KeyRemovalKeepsRecorded(s: Dist, e: Event)
    requires Recorded(s) && (e.SelfRemoved? || e.LeftGroup?)
    ensures Recorded(Step(s, e))
  {
    var t := Step(s, e);
    hide Fail, Begin, Reply, Sweep, Discard, Encrypt;
    forall conv | conv in t.pending
      ensures Awaiting(t, conv, t.pending[conv].key, t.pending[conv].chunks)
    {
      assert Awaiting(s, conv, s.pending[conv].key, s.pending[conv].chunks);
    }
    forall conv
      ensures GroupKnown(t, conv)
    {
      assert GroupKnown(s, conv);
    }
  }

  lemma StepKeepsRecorded(s: Dist, e: Event)
    requires Coherent(s) && Recorded(s)
    ensures Recorded(Step(s, e))
  {
    hide Coherent, Recorded, Fail, Begin, Reply, Sweep, Discard, Encrypt;
    match e {
      case DistributionBuilt(conv, n, now, until) => BeginKeepsRecorded(s, conv, n, now, until);
      case BuildFailed(conv, until) => FailKeepsRecorded(s, {conv}, until);
      case Replied(r, ok, until, storeOpen) => ReplyKeepsRecorded(s, r, ok, until, storeOpen);
      case SweepDue(now, until) => SweepKeepsRecorded(s, now, until);
      case Encrypted(conv, storeOpen, works) => EncryptKeepsRecorded(s, conv, storeOpen, works);
      case Disconnected => DiscardKeepsRecorded(s, map[]);
      case LoggedOut => DiscardKeepsRecorded(s, Discard(s).sends);
      case OtherSend => OtherRequestKeepsRecorded(s, e);
      case OtherTracked(_) => OtherRequestKeepsRecorded(s, e);
      case _ => KeyRemovalKeepsRecorded(s, e);
    }
  }

  /** In every run the tables agree, and the record supports every key in use. */
  lemma {:induction false} RunIsSound(es: seq<Event>)
    ensures Coherent(Run(es)) && Recorded(Run(es))
  {
    if es != [] {
      RunIsSound(es[..|es| - 1]);
      hide Coherent, Recorded, Step;
      StepKeepsCoherent(Run(es[..|es| - 1]), es[|es| - 1]);
      StepKeepsRecorded(Run(es[..|es| - 1]), es[|es| - 1]);
    }
  }

  // ---- Main results ----

  lemma EncryptUsesKnownKey(s: Dist, conv: Conv, storeOpen: bool, works: bool)
    requires GroupKnown(s, conv)
    ensures var t := Encrypt(s, conv, storeOpen, works);
            t.rec.sent == s.rec.sent ||
            exists key :: t.rec.sent == s.rec.sent + [Ciphertext(conv, key)] && Committed(s, conv, key) && conv !in s.pending
  {
    hide Committed;
    var t := Encrypt(s, conv, storeOpen, works);
    if t.rec.sent != s.rec.sent {
      assert t.rec.sent == s.rec.sent + [Ciphertext(conv, t.active[conv])];
    }
  }

  /**
   Whatever is encrypted for a group, a message or an edit, uses a key issued for that group whose
   chunks were all acknowledged before, and no distribution of the group is pending at that moment.
   */
  lemma EncryptionUsesCommittedKey(es: seq<Event>, conv: Conv, storeOpen: bool, works: bool)
    ensures var s := Run(es);
            var t := Encrypt(s, conv, storeOpen, works);
            t.rec.sent == s.rec.sent ||
            exists key :: t.rec.sent == s.rec.sent + [Ciphertext(conv, key)] && Committed(s, conv, key) && conv !in s.pending
  {
    hide Run, Encrypt, Coherent, Committed, Awaiting;
    RunIsSound(es);
    assert GroupKnown(Run(es), conv);
    EncryptUsesKnownKey(Run(es), conv, storeOpen, works);
  }

  // ---- The newest key is the one in use ----

  /** The reply acknowledges the only chunk of the group's distribution that is still open. */
  predicate Completes(s: Dist, e: Event, conv: Conv) {
    && e.Replied? && e.ok && e.request in s.sends && conv in s.pending
    && s.pending[conv].chunks == map[s.sends[e.request] := e.request]
  }

  /** An acknowledged chunk of a group's distribution, and what the tables say of it. */
  lemma OpenChunk(s: Dist, conv: Conv, c: Uuid)
    requires Coherent(s) && conv in s.pending && c in s.pending[conv].chunks
    ensures var r := s.pending[conv].chunks[c];
            && r in s.sends && s.sends[r] == c && c in s.chunkConv && s.chunkConv[c] == conv && conv > 0
  {
    assert OpenRegistered(s, conv, c, s.pending[conv].chunks[c]);
    assert EntriesKnown(s, conv);
  }

  lemma CommitActivates(s: Dist, conv: Conv, c: Uuid, r: Request, storeOpen: bool, other: Conv)
    requires conv in s.pending && s.pending[conv].chunks - {c} == map[]
    ensures var t := Commit(Acknowledge(s, conv, c, r), conv, storeOpen);
            var key := s.pending[conv].key;
            && conv !in t.pending && t.rec.sent == s.rec.sent
            && Lookup(t.active, other) == (if other == conv then Some(key) else Lookup(s.active, other))
            && Lookup(t.stored, other) == if other == conv && storeOpen then Some(key) else Lookup(s.stored, other)
  {
  }

  lemma CompletingReply(s: Dist, e: Event, conv: Conv)
    requires Coherent(s) && Completes(s, e, conv)
    ensures var c := s.sends[e.request];
            && c in s.chunkConv && s.chunkConv[c] == conv && s.pending[conv].chunks - {c} == map[]
            && Step(s, e) == Commit(Acknowledge(s, conv, c, e.request), conv, e.storeOpen)
  {
    var c := s.sends[e.request];
    OpenChunk(s, conv, c);
    hide Coherent, Commit, Fail, Forget, Begin, Sweep, Discard, Encrypt;
    assert s.pending[conv].chunks - {c} == map[];
  }

  lemma OnlyEntry(chunks: map<Uuid, Request>, c: Uuid)
    requires c in chunks
    ensures chunks - {c} == map[] ==> chunks == map[c := chunks[c]]
  {
    assert forall x :: x in chunks && x != c ==> x in chunks - {c};
  }

  /** Any other reply leaves all keys alone. */
  lemma OtherReply(s: Dist, e: Event)
    requires Coherent(s) && e.Replied? && forall conv :: !Completes(s, e, conv)
    ensures var t := Step(s, e); t.active == s.active && t.stored == s.stored && t.rec.sent == s.rec.sent
  {
    hide Begin, Sweep, Discard, Encrypt, Commit, RequestsOf, ChunksOf, KeysOf, RetryAt;
    if e.request in s.sends && s.sends[e.request] in s.chunkConv {
      var c := s.sends[e.request];
      var conv := s.chunkConv[c];
      OpenSend(s, e.request);
      hide Coherent;
      OnlyEntry(s.pending[conv].chunks, c);
      assert !Completes(s, e, conv);
    }
  }

  /** A reply changes the keys of the group whose distribution it completes, and of no other. */
  lemma ReplyKeys(s: Dist, e: Event, conv: Conv)
    requires Coherent(s) && e.Replied?
    ensures var t := Step(s, e);
            && t.rec.sent == s.rec.sent
            && Lookup(t.active, conv) == (if Completes(s, e, conv) then Some(s.pending[conv].key) else Lookup(s.active, conv))
            && (Lookup(t.stored, conv) ==
                  if Completes(s, e, conv) && e.storeOpen then Some(s.pending[conv].key) else Lookup(s.stored, conv))
            && (Completes(s, e, conv) ==> conv !in t.pending)
  {
    hide Step;
    if owner :| Completes(s, e, owner) {
      CompletingReply(s, e, owner);
      CommitActivates(s, owner, s.sends[e.request], e.request, e.storeOpen, conv);
      if Completes(s, e, conv) {
        CompletingReply(s, e, conv);
      }
      hide Coherent, Completes, Commit, Acknowledge;
    } else {
      OtherReply(s, e);
    }
  }

  /** Takes the group's key out of memory. */
  predicate TakesKey(e: Event, conv: Conv) {
    e.Disconnected? || e.LoggedOut? || ((e.SelfRemoved? || e.LeftGroup?) && e.conv == conv)
  }

  /** A key can be looked for, with the group's distribution complete. */
  predicate MayEncrypt(s: Dist, e: Event, conv: Conv) {
    e.Encrypted? && e.conv == conv && conv > 0 && conv !in s.pending
  }

  /** The group's key in memory and the one in the store, as the events of the run tell them. */
  function KeysTold(es: seq<Event>, conv: Conv): (Option<KeyId>, Option<KeyId>) {
    if es == [] then (None, None)
    else
      var s, e := Run(es[..|es| - 1]), es[|es| - 1];
      var (memory, saved) := KeysTold(es[..|es| - 1], conv);
      if Completes(s, e, conv) then
        (Some(s.pending[conv].key), if e.storeOpen then Some(s.pending[conv].key) else saved)
      else if TakesKey(e, conv) then
        (None, if e.LeftGroup? && e.storeOpen then None else saved)
      else if MayEncrypt(s, e, conv) then
        var key := if memory.None? && e.storeOpen then saved else memory;
        (key, if e.works && e.storeOpen && key.Some? then key else saved)
      else (memory, saved)
  }

  lemma OtherStepKeys(s: Dist, e: Event, conv: Conv)
    requires !e.Replied? && !e.Encrypted?
    ensures var t := Step(s, e);
            && t.rec.sent == s.rec.sent
            && Lookup(t.active, conv) == (if TakesKey(e, conv) then None else Lookup(s.active, conv))
            && Lookup(t.stored, conv) == if e.LeftGroup? && e.conv == conv && e.storeOpen then None else Lookup(s.stored, conv)
  {
    hide RequestsOf, ChunksOf, KeysOf, RetryAt, Numbered, AllTo, Span, Affected, Expired;
  }

  lemma EncryptOwn(s: Dist, conv: Conv, storeOpen: bool, works: bool)
    ensures var t := Encrypt(s, conv, storeOpen, works);
            var memory, saved := Lookup(s.active, conv), Lookup(s.stored, conv);
            var key := if memory.None? && storeOpen then saved else memory;
            var may := conv > 0 && conv !in s.pending;
            && Lookup(t.active, conv) == (if may then key else memory)
            && Lookup(t.stored, conv) == (if may && works && storeOpen && key.Some? then key else saved)
            && t.rec.sent == s.rec.sent + if may && works && key.Some? then [Ciphertext(conv, key.value)] else []
  {
  }

  lemma EncryptOther(s: Dist, conv: Conv, storeOpen: bool, works: bool, other: Conv)
    requires other != conv
    ensures var t := Encrypt(s, conv, storeOpen, works);
            Lookup(t.active, other) == Lookup(s.active, other) && Lookup(t.stored, other) == Lookup(s.stored, other)
  {
  }

  lemma EncryptKeys(s: Dist, e: Event, conv: Conv)
    requires e.Encrypted?
    ensures var t := Step(s, e);
            var memory, saved := Lookup(s.active, conv), Lookup(s.stored, conv);
            var key := if memory.None? && e.storeOpen then saved else memory;
            && Lookup(t.active, conv) == (if MayEncrypt(s, e, conv) then key else memory)
            && (Lookup(t.stored, conv) ==
                  if MayEncrypt(s, e, conv) && e.works && e.storeOpen && key.Some? then key else saved)
            && (e.conv == conv ==>
                  t.rec.sent == s.rec.sent + if MayEncrypt(s, e, conv) && e.works && key.Some? then [Ciphertext(conv, key.value)] else [])
  {
    hide Fail, Begin, Reply, Sweep, Discard, Encrypt, Lookup;
    if e.conv == conv {
      EncryptOwn(s, conv, e.storeOpen, e.works);
    } else {
      EncryptOther(s, e.conv, e.storeOpen, e.works, conv);
    }
  }

  /** Memory and store hold exactly the keys the run tells of. */
  lemma {:induction false} KeysAreAsTold(es: seq<Event>, conv: Conv)
    ensures (Lookup(Run(es).active, conv), Lookup(Run(es).stored, conv)) == KeysTold(es, conv)
  {
    if es != [] {
      var front, e := es[..|es| - 1], es[|es| - 1];
      var s := Run(front);
      KeysAreAsTold(front, conv);
      RunIsSound(front);
      hide Coherent, Recorded, Reply, Completes, MayEncrypt;
      if e.Replied? {
        ReplyKeys(s, e, conv);
      } else if e.Encrypted? {
        EncryptKeys(s, e, conv);
      } else {
        OtherStepKeys(s, e, conv);
      }
      NotThisKind(s, e, conv);
      hide Step;
    }
  }

  lemma NotThisKind(s: Dist, e: Event, conv: Conv)
    ensures Completes(s, e, conv) ==> e.Replied?
    ensures MayEncrypt(s, e, conv) ==> e.Encrypted? && e.conv == conv
  {
  }

  /** The key of the group whose last acknowledgement came latest. */
  function LatestKey(es: seq<Event>, conv: Conv): Option<KeyId> {
    if es == [] then None
    else
      var s, e := Run(es[..|es| - 1]), es[|es| - 1];
      if Completes(s, e, conv) then Some(s.pending[conv].key) else LatestKey(es[..|es| - 1], conv)
  }

  /**
   Once a group's last open chunk is acknowledged, its key is in memory, and in the store if that is open;
   as long as nothing takes the group's key from memory, whatever is encrypted for the group then uses
   the key whose last acknowledgement came latest.
   */
  lemma LatestKeyIsUsed(es: seq<Event>, e: Event, later: seq<Event>, conv: Conv, storeOpen: bool)
    requires Completes(Run(es), e, conv)
    requires forall x <- later :: !TakesKey(x, conv)
    ensures var s, t := Run(es), Run(es + [e]);
            var key := s.pending[conv].key;
            && conv !in t.pending && Lookup(t.active, conv) == Some(key)
            && (e.storeOpen ==> Lookup(t.stored, conv) == Some(key))
    ensures var all := es + [e] + later;
            && LatestKey(all, conv).Some? && Lookup(Run(all).active, conv) == LatestKey(all, conv)
            && (conv !in Run(all).pending ==>
                  Run(all + [Encrypted(conv, storeOpen, true)]).rec.sent
                  == Run(all).rec.sent + [Ciphertext(conv, LatestKey(all, conv).value)])
  {
    var all := es + [e] + later;
    var x := Encrypted(conv, storeOpen, true);
    RunIsSound(es);
    assert (es + [e])[..|es|] == es;
    ReplyKeys(Run(es), e, conv);
    PositiveGroup(Run(es), conv);
    LatestIsInMemory(es, e, later, conv);
    KeysAreAsTold(all, conv);
    EncryptKeys(Run(all), x, conv);
    assert (all + [x])[..|all|] == all;
    hide Coherent, Recorded, Reply, Completes, Encrypt;
  }

  lemma PositiveGroup(s: Dist, conv: Conv)
    requires Coherent(s) && conv in s.pending
    ensures conv > 0
  {
    assert EntriesKnown(s, conv);
  }

  lemma {:induction false} LatestIsInMemory(es: seq<Event>, e: Event, later: seq<Event>, conv: Conv)
    requires Completes(Run(es), e, conv) && forall x <- later :: !TakesKey(x, conv)
    ensures LatestKey(es + [e] + later, conv).Some?
    ensures KeysTold(es + [e] + later, conv).0 == LatestKey(es + [e] + later, conv)
  {
    hide Completes, MayEncrypt, TakesKey, Step, Run;
    var all := es + [e] + later;
    if later == [] {
      assert all[..|all| - 1] == es && all[|all| - 1] == e;
    } else {
      var front := later[..|later| - 1];
      LatestIsInMemory(es, e, front, conv);
      assert all[..|all| - 1] == es + [e] + front && all[|all| - 1] == later[|later| - 1];
      assert later[|later| - 1] in later;
    }
  }

  lemma NextAcknowledged(s: Dist, conv: Conv, c: Uuid)
    requires Coherent(s) && conv in s.pending && c in s.pending[conv].chunks && s.pending[conv].chunks - {c} != map[]
    ensures var t := Reply(s, s.pending[conv].chunks[c], true, 0, true);
            conv in t.pending && t.pending[conv] == Pending(s.pending[conv].key, s.pending[conv].chunks - {c})
  {
    OpenChunk(s, conv, c);
    hide Coherent, Fail, Commit;
  }

  /** A distribution whose chunks are all acknowledged ends with its key in use. */
  lemma {:induction false} AcknowledgementsCommit(es: seq<Event>, conv: Conv)
    requires conv in Run(es).pending
    ensures exists acks :: Rotated(es, acks, conv, Run(es).pending[conv].key)
    decreases |Run(es).pending[conv].chunks|
  {
    hide Run, Step, Coherent, Recorded, Reply, Completes;
    var s := Run(es);
    RunIsSound(es);
    HasChunks(s, conv);
    var chunks := s.pending[conv].chunks;
    var c := Member(chunks.Keys);
    var e := Replied(chunks[c], true, 0, true);
    OpenChunk(s, conv, c);
    RunReply(es, e);
    if chunks - {c} == map[] {
      OnlyChunk(s, conv, c);
      ReplyKeys(s, e, conv);
      assert Rotated(es, [e], conv, s.pending[conv].key);
    } else {
      NextAcknowledged(s, conv, c);
      assert chunks.Keys == (chunks - {c}).Keys + {c} && |chunks.Keys| == |chunks| && |(chunks - {c}).Keys| == |chunks - {c}|;
      AcknowledgementsCommit(es + [e], conv);
      var acks :| Rotated(es + [e], acks, conv, s.pending[conv].key);
      assert es + [e] + acks == es + ([e] + acks);
      assert Rotated(es, [e] + acks, conv, s.pending[conv].key);
    }
  }

  /** After these acknowledgements the distribution is over and the key in use. */
  predicate Rotated(es: seq<Event>, acks: seq<Event>, conv: Conv, key: KeyId) {
    && (forall e <- acks :: e.Replied? && e.ok)
    && conv !in Run(es + acks).pending
    && Lookup(Run(es + acks).active, conv) == Lookup(Run(es + acks).stored, conv) == Some(key)
  }

  lemma HasChunks(s: Dist, conv: Conv)
    requires Coherent(s) && conv in s.pending
    ensures s.pending[conv].chunks.Keys != {}
  {
    assert EntriesKnown(s, conv);
  }

  lemma RunReply(es: seq<Event>, e: Event)
    requires e.Replied?
    ensures Run(es + [e]) == Step(Run(es), e) == Reply(Run(es), e.request, e.ok, e.until, e.storeOpen)
  {
    assert (es + [e])[..|es|] == es;
    hide Reply;
  }

  lemma OnlyChunk(s: Dist, conv: Conv, c: Uuid)
    requires Coherent(s) && conv in s.pending && c in s.pending[conv].chunks && s.pending[conv].chunks - {c} == map[]
    ensures Completes(s, Replied(s.pending[conv].chunks[c], true, 0, true), conv)
  {
    OpenChunk(s, conv, c);
    hide Coherent;
    OnlyEntry(s.pending[conv].chunks, c);
  }

  /** In every run a rotation begun for a group can be completed, and then its key is the one in use. */
  lemma RotationCanSucceed(es: seq<Event>, conv: Conv, n: nat, now: int, until: int)
    requires conv > 0 && n > 0
    ensures exists acks :: Rotated(es + [DistributionBuilt(conv, n, now, until)], acks, conv, Run(es).nextKey)
  {
    var e := DistributionBuilt(conv, n, now, until);
    assert (es + [e])[..|es|] == es;
    assert Run(es + [e]).pending[conv].key == Run(es).nextKey by {
      hide RequestsOf, ChunksOf, KeysOf, RetryAt, Numbered, AllTo, Span, Run;
    }
    AcknowledgementsCommit(es + [e], conv);
  }

  // ---- When a group's keys are asked for again ----

  /** The event gives up the group's distribution: none could be built, a chunk is refused, or it is overdue. */
  predicate GivesUp(s: Dist, e: Event, conv: Conv) {
    match e
    case BuildFailed(c, _) => c == conv
    case Replied(r, ok, _, _) => !ok && r in s.sends && s.sends[r] in s.chunkConv && s.chunkConv[s.sends[r]] == conv
    case SweepDue(now, _) => conv in s.pending && s.pending[conv].key in s.rec.issued && s.rec.issued[s.pending[conv].key].deadline <= now
    case _ => false
  }

  /** The event leaves no reason to wait: a rotation begins or is complete, or the session ends. */
  predicate StartsAfresh(s: Dist, e: Event, conv: Conv) {
    || (e.DistributionBuilt? && e.conv == conv && conv > 0 && e.chunks > 0)
    || Completes(s, e, conv) || e.Disconnected? || e.LoggedOut?
  }

  function Until(e: Event): int
    requires e.BuildFailed? || e.Replied? || e.SweepDue?
  {
    e.until
  }

  /** The time before which the group's keys are not asked for again, as the events of the run tell it. */
  function HeldBack(es: seq<Event>, conv: Conv): Option<int> {
    if es == [] then None
    else
      var s, e := Run(es[..|es| - 1]), es[|es| - 1];
      if GivesUp(s, e, conv) then Some(Until(e))
      else if StartsAfresh(s, e, conv) then None
      else HeldBack(es[..|es| - 1], conv)
  }

  lemma FailBackoff(s: Dist, convs: set<Conv>, until: int, conv: Conv)
    ensures Lookup(Fail(s, convs, until).backoff, conv) == if conv in convs then Some(until) else Lookup(s.backoff, conv)
  {
    hide RequestsOf, ChunksOf, KeysOf;
  }

  lemma BeginBackoff(s: Dist, e: Event, conv: Conv)
    requires e.DistributionBuilt?
    ensures Lookup(Step(s, e).backoff, conv) == if StartsAfresh(s, e, conv) then None else Lookup(s.backoff, conv)
  {
    hide Fail, Numbered, AllTo, Span, Reply, Sweep, Discard, Encrypt;
    FailBackoff(s, {e.conv}, e.until, conv);
  }

  /** The groups a sweep affects are those whose distribution is overdue. */
  lemma OverdueAffected(s: Dist, now: int, conv: Conv)
    requires Coherent(s) && Recorded(s)
    ensures conv in Affected(s, Expired(s, now)) <==> GivesUp(s, SweepDue(now, 0), conv)
  {
    if conv in s.pending {
      var chunks := s.pending[conv].chunks;
      assert Awaiting(s, conv, s.pending[conv].key, chunks) && EntriesKnown(s, conv);
      var c := Member(chunks.Keys);
      assert OpenRegistered(s, conv, c, chunks[c]);
      assert chunks[c] in s.requestConv && s.requestConv[chunks[c]] == conv;
    }
    if conv in Affected(s, Expired(s, now)) {
      var r :| r in Expired(s, now) && r in s.requestConv && s.requestConv[r] == conv;
      assert EntriesKnown(s, r);
    }
  }

  lemma SweepBackoff(s: Dist, e: Event, conv: Conv)
    requires Coherent(s) && Recorded(s) && e.SweepDue?
    ensures Lookup(Step(s, e).backoff, conv) == if GivesUp(s, e, conv) then Some(e.until) else Lookup(s.backoff, conv)
  {
    OverdueAffected(s, e.now, conv);
    FailBackoff(s, Affected(s, Expired(s, e.now)), e.until, conv);
    assert GivesUp(s, e, conv) <==> GivesUp(s, SweepDue(e.now, 0), conv);
    hide Coherent, Recorded, GivesUp, Fail, Affected, Expired, Begin, Reply, Discard, Encrypt;
  }

  lemma CommitBackoff(s: Dist, conv: Conv, c: Uuid, r: Request, storeOpen: bool, other: Conv)
    requires conv in s.pending && s.pending[conv].chunks - {c} == map[]
    ensures Lookup(Commit(Acknowledge(s, conv, c, r), conv, storeOpen).backoff, other)
         == if other == conv then None else Lookup(s.backoff, other)
  {
  }

  lemma OtherReplyBackoff(s: Dist, e: Event, conv: Conv)
    requires Coherent(s) && e.Replied? && forall owner :: !Completes(s, e, owner)
    ensures Lookup(Step(s, e).backoff, conv) == if GivesUp(s, e, conv) then Some(e.until) else Lookup(s.backoff, conv)
  {
    hide Begin, Sweep, Discard, Encrypt, Commit, Fail;
    if e.request in s.sends && s.sends[e.request] in s.chunkConv {
      var c := s.sends[e.request];
      var owner := s.chunkConv[c];
      OpenSend(s, e.request);
      hide Coherent;
      FailBackoff(Forget(s.(sends := s.sends - {e.request}), e.request), {owner}, e.until, conv);
      OnlyEntry(s.pending[owner].chunks, c);
      assert !Completes(s, e, owner);
    }
  }

  lemma ReplyBackoff(s: Dist, e: Event, conv: Conv)
    requires Coherent(s) && e.Replied?
    ensures Lookup(Step(s, e).backoff, conv)
         == if GivesUp(s, e, conv) then Some(e.until) else if Completes(s, e, conv) then None else Lookup(s.backoff, conv)
  {
    hide Step;
    if owner :| Completes(s, e, owner) {
      CompletingReply(s, e, owner);
      CommitBackoff(s, owner, s.sends[e.request], e.request, e.storeOpen, conv);
      assert e.ok;
      if Completes(s, e, conv) {
        CompletingReply(s, e, conv);
      }
      hide Coherent, Completes, Commit, Acknowledge;
    } else {
      OtherReplyBackoff(s, e, conv);
    }
  }

  lemma OtherBackoff(s: Dist, e: Event, conv: Conv)
    requires !e.Replied? && !e.SweepDue? && !e.DistributionBuilt?
    ensures Lookup(Step(s, e).backoff, conv)
         == if GivesUp(s, e, conv) then Some(Until(e)) else if StartsAfresh(s, e, conv) then None else Lookup(s.backoff, conv)
  {
    hide Reply, Begin, Sweep, Fail, Encrypt;
    if e.BuildFailed? {
      FailBackoff(s, {e.conv}, e.until, conv);
    } else if e.Encrypted? {
      EncryptBackoff(s, e.conv, e.storeOpen, e.works);
    }
  }

  lemma EncryptBackoff(s: Dist, conv: Conv, storeOpen: bool, works: bool)
    ensures Encrypt(s, conv, storeOpen, works).backoff == s.backoff
  {
  }

  /**
   In every run a group is held back exactly since, and until the time set when, its distribution was last
   given up, unless a rotation has begun or been completed, or the session ended, after that.
   */
  lemma {:induction false} HeldBackAsTold(es: seq<Event>, conv: Conv)
    ensures Lookup(Run(es).backoff, conv) == HeldBack(es, conv)
  {
    if es != [] {
      var front, e := es[..|es| - 1], es[|es| - 1];
      HeldBackAsTold(front, conv);
      RunIsSound(front);
      hide Coherent, Recorded, Step, Completes;
      var s := Run(front);
      if e.Replied? {
        ReplyBackoff(s, e, conv);
      } else if e.SweepDue? {
        SweepBackoff(s, e, conv);
        NotThisKind(s, e, conv);
      } else if e.DistributionBuilt? {
        BeginBackoff(s, e, conv);
      } else {
        OtherBackoff(s, e, conv);
      }
    }
  }

  /** The timer is stopped when a sweep, the answer to a tracked request or the end of the session leaves nothing to track. */
  lemma TimerStops(es: seq<Event>, e: Event)
    requires e.SweepDue? || e.Disconnected? || e.LoggedOut? || (e.Replied? && e.ok && e.request in Run(es).sends && e.request in Run(es).deadlines)
    ensures TimerExact(Run(es + [e]))
  {
    RunIsSound(es);
    assert (es + [e])[..|es|] == es;
    hide Coherent, Recorded, Step, TimerExact;
    SteppedTimer(Run(es), e);
  }

  predicate TimerExact(s: Dist) {
    s.timer <==> s.deadlines != map[]
  }

  lemma ForgetTimer(s: Dist, r: Request)
    requires s.timer && r in s.deadlines
    ensures TimerExact(Forget(s, r))
  {
  }

  /** What follows forgetting the request leaves timer and deadlines alone. */
  lemma AcknowledgedTimer(s: Dist, e: Event)
    requires e.Replied? && e.ok && e.request in s.sends
    ensures var t, u := Step(s, e), Forget(s.(sends := s.sends - {e.request}), e.request);
            t.timer == u.timer && t.deadlines == u.deadlines
  {
    hide Begin, Sweep, Discard, Encrypt, Fail, Acknowledge, Commit, Forget, Reply;
    var r := e.request;
    if s.sends[r] in s.chunkConv && s.chunkConv[s.sends[r]] in s.pending {
      OpenChunkReplied(s, s.chunkConv[s.sends[r]], e);
      AcknowledgeTimer(s, s.chunkConv[s.sends[r]], s.sends[r], r);
      CommitTimer(Acknowledge(s, s.chunkConv[s.sends[r]], s.sends[r], r), s.chunkConv[s.sends[r]], e.storeOpen);
    } else {
      LateReply(s, e);
    }
  }

  lemma OpenChunkReplied(s: Dist, conv: Conv, e: Event)
    requires e.Replied? && e.ok && e.request in s.sends && s.sends[e.request] in s.chunkConv
    requires conv == s.chunkConv[s.sends[e.request]] && conv in s.pending
    ensures var v := Acknowledge(s, conv, s.sends[e.request], e.request);
            Reply(s, e.request, e.ok, e.until, e.storeOpen)
            == if conv in v.pending && v.pending[conv].chunks == map[] then Commit(v, conv, e.storeOpen) else v
  {
    hide Commit, Fail, Forget;
  }

  lemma LateReply(s: Dist, e: Event)
    requires e.Replied? && e.ok && e.request in s.sends
    requires s.sends[e.request] in s.chunkConv ==> s.chunkConv[s.sends[e.request]] !in s.pending
    ensures var t, u := Reply(s, e.request, e.ok, e.until, e.storeOpen), Forget(s.(sends := s.sends - {e.request}), e.request);
            t.timer == u.timer && t.deadlines == u.deadlines
  {
    hide Acknowledge, Commit, Fail, Forget;
  }

  lemma AcknowledgeTimer(s: Dist, conv: Conv, c: Uuid, r: Request)
    requires conv in s.pending
    ensures var t, u := Acknowledge(s, conv, c, r), Forget(s.(sends := s.sends - {r}), r);
            t.timer == u.timer && t.deadlines == u.deadlines
  {
    hide Forget;
  }

  lemma CommitTimer(s: Dist, conv: Conv, storeOpen: bool)
    ensures var t := Commit(s, conv, storeOpen); t.timer == s.timer && t.deadlines == s.deadlines
  {
  }

  lemma SweptTimer(s: Dist, now: int, until: int)
    requires s.deadlines != map[] ==> s.timer
    ensures TimerExact(Sweep(s, now, until))
  {
    hide RequestsOf, ChunksOf, KeysOf, RetryAt, Affected, Expired;
    assert s.deadlines == map[] ==> Sweep(s, now, until).deadlines == map[];
  }

  lemma SteppedTimer(s: Dist, e: Event)
    requires Coherent(s)
    requires e.SweepDue? || e.Disconnected? || e.LoggedOut? || (e.Replied? && e.ok && e.request in s.sends && e.request in s.deadlines)
    ensures TimerExact(Step(s, e))
  {
    assert s.deadlines != map[] ==> s.timer;
    hide Coherent, Begin, Sweep, Reply, Encrypt, KeysOf, Forget;
    if e.SweepDue? {
      SweptTimer(s, e.now, e.until);
    } else if e.Replied? {
      AcknowledgedTimer(s, e);
      ForgetTimer(s.(sends := s.sends - {e.request}), e.request);
      hide Step;
    }
  }

  predicate Extends(s: Dist, t: Dist) {
    s.rec.acked <= t.rec.acked && s.rec.dead <= t.rec.dead
  }

  lemma AcknowledgedExtends(s: Dist, conv: Conv, c: Uuid, r: Request, storeOpen: bool)
    requires conv in s.pending
    ensures Extends(s, Acknowledge(s, conv, c, r))
    ensures Extends(s, Commit(Acknowledge(s, conv, c, r), conv, storeOpen))
  {
  }

  lemma ReplyExtends(s: Dist, r: Request, ok: bool, until: int, storeOpen: bool)
    ensures Extends(s, Reply(s, r, ok, until, storeOpen))
  {
    hide RequestsOf, ChunksOf, KeysOf, RetryAt;
    if ok && r in s.sends && s.sends[r] in s.chunkConv && s.chunkConv[s.sends[r]] in s.pending {
      AcknowledgedExtends(s, s.chunkConv[s.sends[r]], s.sends[r], r, storeOpen);
      hide Acknowledge, Commit, Fail, Forget;
    } else {
      hide Acknowledge, Commit;
    }
  }

  lemma BeginExtends(s: Dist, conv: Conv, n: nat, now: int, until: int)
    ensures Extends(s, Begin(s, conv, n, now, until))
  {
    hide RequestsOf, ChunksOf, KeysOf, RetryAt, Span, Numbered, AllTo;
  }

  lemma FailExtends(s: Dist, convs: set<Conv>, until: int)
    ensures Extends(s, Fail(s, convs, until))
  {
    hide RequestsOf, ChunksOf, KeysOf, RetryAt;
  }

  lemma DiscardExtends(s: Dist)
    ensures Extends(s, Discard(s))
  {
    hide KeysOf;
  }

  lemma EncryptExtends(s: Dist, conv: Conv, storeOpen: bool, works: bool)
    ensures Extends(s, Encrypt(s, conv, storeOpen, works))
  {
  }

  lemma StepExtends(s: Dist, e: Event)
    ensures Extends(s, Step(s, e))
  {
    hide Fail, Begin, Reply, Discard, Encrypt, Affected, Expired;
    match e {
      case DistributionBuilt(conv, n, now, until) => BeginExtends(s, conv, n, now, until);
      case Replied(r, ok, until, storeOpen) => ReplyExtends(s, r, ok, until, storeOpen);
      case BuildFailed(conv, until) => FailExtends(s, {conv}, until);
      case SweepDue(now, until) => FailExtends(s, Affected(s, Expired(s, now)), until);
      case Disconnected => DiscardExtends(s);
      case LoggedOut => DiscardExtends(s);
      case Encrypted(conv, storeOpen, works) => EncryptExtends(s, conv, storeOpen, works);
      case _ =>
    }
  }

  lemma {:induction false} RunExtends(es: seq<Event>, later: seq<Event>)
    ensures Extends(Run(es), Run(es + later))
  {
    hide Step;
    if later == [] {
      assert es + later == es;
    } else {
      var front := later[..|later| - 1];
      RunExtends(es, front);
      assert (es + later)[..|es + later| - 1] == es + front;
      StepExtends(Run(es + front), later[|later| - 1]);
    }
  }

  /**
   A key whose distribution was superseded, refused, timed out or discarded is never used:
   whatever replies still arrive, it is neither in memory nor in the store nor in any ciphertext.
   */
  lemma DeadKeysStayDead(es: seq<Event>, later: seq<Event>, key: KeyId)
    requires key in Run(es).rec.dead
    ensures var t := Run(es + later);
            && (forall conv :: conv in t.active ==> t.active[conv] != key)
            && (forall conv :: conv in t.stored ==> t.stored[conv] != key)
            && (forall e :: e in t.rec.sent ==> e.key != key)
  {
    var t := Run(es + later);
    RunExtends(es, later);
    RunIsSound(es + later);
    hide Run, Coherent;
    forall conv
      ensures conv in t.active ==> t.active[conv] != key
      ensures conv in t.stored ==> t.stored[conv] != key
    {
      assert GroupKnown(t, conv);
    }
  }

  /** A sweep ends exactly the distributions that are due, and gives up their keys. */
  lemma SweepEndsOverdue(es: seq<Event>, now: int, until: int, conv: Conv)
    requires conv in Run(es).pending
    ensures var s := Run(es);
            var t := Sweep(s, now, until);
            var key := s.pending[conv].key;
            && key in s.rec.issued && s.timer
            && (conv !in t.pending <==> s.rec.issued[key].deadline <= now)
            && (conv in t.pending ==> t.pending[conv] == s.pending[conv])
            && (conv !in t.pending ==> key in t.rec.dead)
  {
    var s := Run(es);
    RunIsSound(es);
    hide Run, Begin, Reply, Discard, Encrypt;
    var chunks := s.pending[conv].chunks;
    assert Awaiting(s, conv, s.pending[conv].key, chunks) && EntriesKnown(s, conv);
    var c := Member(chunks.Keys);
    assert OpenRegistered(s, conv, c, chunks[c]);
    if conv in Affected(s, Expired(s, now)) {
      var r :| r in Expired(s, now) && r in s.requestConv && s.requestConv[r] == conv;
      assert EntriesKnown(s, r);
    }
  }

  /**
   Logging out, unlike losing the connection, leaves the requests of discarded chunks registered
   as sends: a late reply to one is then taken for that of an ordinary message. It still commits
   nothing (DeadKeysStayDead).
   */
  lemma LogoutLeavesSends(es: seq<Event>, conv: Conv, c: Uuid)
    requires conv in Run(es).pending && c in Run(es).pending[conv].chunks
    ensures var r := Run(es).pending[conv].chunks[c];
            && r in Discard(Run(es)).sends && Discard(Run(es)).sends[r] == c
            && Discard(Run(es)).chunkConv == map[]
  {
    var s := Run(es);
    RunIsSound(es);
    hide Run, Recorded;
    assert OpenRegistered(s, conv, c, s.pending[conv].chunks[c]);
  }
}
