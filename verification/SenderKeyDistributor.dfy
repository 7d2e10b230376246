/**
 The distribution tables in place: the client's handlers as methods that change the five tables
 entry by entry, each proved to do what SenderKeys says of the tables as a whole.
 */
module SenderKeyDistributor {
  import opened SenderKeys
  import opened Wrappers

  /** What is registered for a group is what its distribution has open. */
  predicate Tidy(s: Dist, conv: Conv) {
    && ChunksOf(s, {conv}) == (if conv in s.pending then s.pending[conv].chunks.Keys else {})
    && RequestsOf(s, {conv}) == (if conv in s.pending then s.pending[conv].chunks.Values else {})
  }

  lemma CoherentIsTidy(s: Dist, conv: Conv)
    requires Coherent(s)
    ensures Tidy(s, conv)
  {
    if conv in s.pending {
      RegisteredAreOpen(s, conv);
    } else {
      forall x
        ensures x !in ChunksOf(s, {conv}) && x !in RequestsOf(s, {conv})
      {
        assert EntriesKnown(s, x);
      }
    }
  }

  lemma RegisteredForBoth(table: map<int, Conv>, a: set<Conv>, b: set<Conv>)
    ensures RegisteredFor(table, a) + RegisteredFor(table - RegisteredFor(table, a), b) == RegisteredFor(table, a + b)
  {
  }

  lemma RetryBoth(m: map<Conv, int>, a: set<Conv>, b: set<Conv>, until: int)
    ensures m + RetryAt(a, until) + RetryAt(b, until) == m + RetryAt(a + b, until)
  {
  }

  lemma RetryOne(m: map<Conv, int>, conv: Conv, until: int)
    ensures m + RetryAt({conv}, until) == m[conv := until]
  {
  }

  lemma RemoveTwice<T>(m: map<int, T>, x: set<int>, y: set<int>)
    ensures m - x - y == m - (x + y)
  {
  }

  lemma KeysOfBoth(s: Dist, a: set<Conv>, b: set<Conv>, until: int)
    ensures KeysOf(s, a) + KeysOf(Fail(s, a, until), b) == KeysOf(s, a + b)
  {
    var t := Fail(s, a, until);
    assert t.pending == s.pending - a;
    hide Fail;
    forall key
      ensures key in KeysOf(s, a + b) <==> key in KeysOf(s, a) + KeysOf(t, b)
    {
      if key in KeysOf(s, a + b) {
        var conv :| conv in a + b && conv in s.pending.Keys && s.pending[conv].key == key;
        assert conv in a || (conv in b && conv in t.pending && t.pending[conv].key == key);
      }
    }
  }

  /** Giving up two sets of groups one after the other is giving up all of them. */
  lemma FailTwice(s: Dist, a: set<Conv>, b: set<Conv>, until: int)
    ensures Fail(Fail(s, a, until), b, until) == Fail(s, a + b, until)
  {
    var t := Fail(s, a, until);
    RegisteredForBoth(s.chunkConv, a, b);
    RegisteredForBoth(s.requestConv, a, b);
    KeysOfBoth(s, a, b, until);
    hide RegisteredFor, KeysOf, RetryAt;
    RemoveTwice(s.pending, a, b);
    RemoveTwice(s.chunkConv, ChunksOf(s, a), ChunksOf(t, b));
    RemoveTwice(s.requestConv, RequestsOf(s, a), RequestsOf(t, b));
    RemoveTwice(s.sends, RequestsOf(s, a), RequestsOf(t, b));
    RemoveTwice(s.deadlines, RequestsOf(s, a), RequestsOf(t, b));
    assert s.rec.dead + KeysOf(s, a) + KeysOf(t, b) == s.rec.dead + KeysOf(s, a + b);
    RetryBoth(s.backoff, a, b, until);
  }

  lemma KeyOfOne(s: Dist, conv: Conv)
    requires conv in s.pending
    ensures KeysOf(s, {conv}) == {s.pending[conv].key}
  {
  }

  /** Failing a group without a distribution only sets its retry time. */
  lemma NothingToFail(s: Dist, conv: Conv, until: int)
    requires Tidy(s, conv) && conv !in s.pending
    ensures Fail(s, {conv}, until) == s.(backoff := s.backoff[conv := until])
  {
    RetryOne(s.backoff, conv, until);
    assert KeysOf(s, {conv}) == {};
    assert s.pending - {conv} == s.pending;
    RemoveNothing(s.chunkConv);
    RemoveNothing(s.requestConv);
    RemoveNothing(s.sends);
    RemoveNothing(s.deadlines);
  }

  function Without(s: Dist, conv: Conv): Dist
    requires conv in s.pending
  {
    var chunks := s.pending[conv].chunks;
    s.(pending := s.pending - {conv}, chunkConv := s.chunkConv - chunks.Keys,
       requestConv := s.requestConv - chunks.Values, sends := s.sends - chunks.Values,
       deadlines := s.deadlines - chunks.Values, rec := s.rec.(dead := s.rec.dead + {s.pending[conv].key}))
  }

  /** Failing one group removes exactly what its open chunks name. */
  lemma FailOne(s: Dist, conv: Conv, until: int)
    requires Tidy(s, conv) && conv in s.pending
    ensures Fail(s, {conv}, until) == Without(s, conv).(backoff := s.backoff[conv := until])
  {
    RetryOne(s.backoff, conv, until);
    KeyOfOne(s, conv);
    hide RegisteredFor, KeysOf, RetryAt;
  }

  lemma RemoveNothing<V>(m: map<int, V>)
    ensures m - {} == m
  {
  }

  function RequestsAt(chunks: map<Uuid, Request>, cs: set<Uuid>): set<Request> {
    set c | c in cs && c in chunks :: chunks[c]
  }

  lemma RequestsGrow(chunks: map<Uuid, Request>, cs: set<Uuid>, c: Uuid)
    requires c in chunks
    ensures RequestsAt(chunks, cs + {c}) == RequestsAt(chunks, cs) + {chunks[c]}
  {
  }

  lemma RequestsOfAll(chunks: map<Uuid, Request>)
    ensures RequestsAt(chunks, chunks.Keys) == chunks.Values
  {
    forall r | r in chunks.Values
      ensures r in RequestsAt(chunks, chunks.Keys)
    {
      var c := Preimage(chunks, r);
    }
  }

  lemma EmptyTables<V>(m: map<int, V>, lo: int, v: V)
    ensures m + AllTo(lo, 0, v) == m
  {
  }

  lemma NumberingStarts(m: map<int, int>, lo: int, first: int)
    ensures Numbered(lo, 0, first) == map[] && m + Numbered(lo, 0, first) == m
  {
  }

  lemma TableGrows<V>(m: map<int, V>, lo: int, i: nat, v: V)
    ensures m + AllTo(lo, i + 1, v) == (m + AllTo(lo, i, v))[lo + i := v]
  {
  }

  lemma NumberingGrows(m: map<int, int>, lo: int, i: nat, first: int)
    ensures m + Numbered(lo, i + 1, first) == (m + Numbered(lo, i, first))[lo + i := first + i]
    ensures Numbered(lo, i + 1, first) == Numbered(lo, i, first)[lo + i := first + i]
  {
  }

  /** A sweep after handling only the requests in `done`. */
  function Swept(s: Dist, done: set<Request>, until: int): Dist {
    var t := Fail(s, Affected(s, done), until);
    t.(deadlines := t.deadlines - done)
  }

  lemma SweptAll(s: Dist, now: int, until: int)
    ensures var t := Swept(s, Expired(s, now), until);
            Sweep(s, now, until) == t.(timer := t.timer && t.deadlines != map[])
  {
    hide Fail, Affected, Expired;
  }

  lemma NothingSwept(s: Dist, until: int)
    ensures Swept(s, {}, until) == s
  {
    assert Affected(s, {}) == {};
    assert s.pending - {} == s.pending && KeysOf(s, {}) == {};
    assert s.backoff + RetryAt({}, until) == s.backoff;
    assert ChunksOf(s, {}) == {} && RequestsOf(s, {}) == {};
    RemoveNothing(s.chunkConv);
    RemoveNothing(s.requestConv);
    RemoveNothing(s.sends);
    RemoveNothing(s.deadlines);
  }

  /** Handling one more request: its group is failed unless an earlier request did that. */
  lemma SweepOne(s: Dist, done: set<Request>, r: Request, until: int)
    requires Coherent(s)
    ensures var t := Swept(s, done, until).(deadlines := Swept(s, done, until).deadlines - {r});
            if r in t.requestConv
            then Tidy(t, t.requestConv[r]) && Fail(t, {t.requestConv[r]}, until) == Swept(s, done + {r}, until)
            else t == Swept(s, done + {r}, until)
  {
    var a := Affected(s, done);
    var u := Fail(s, a, until);
    RemoveTwice(u.deadlines, done, {r});
    if r in u.requestConv {
      var conv := u.requestConv[r];
      FailKeepsCoherent(s, a, until);
      CoherentIsTidy(u, conv);
      assert Affected(s, done + {r}) == a + {conv};
      FailTwice(s, a, {conv}, until);
      hide Coherent, Affected, Tidy, RegisteredFor, KeysOf, RetryAt;
      FailCommutes(u, {conv}, done + {r}, until);
      assert u.deadlines - done - {r} == u.deadlines - (done + {r});
      assert Tidy(u.(deadlines := u.deadlines - (done + {r})), conv) by {
        TidyIgnoresDeadlines(u, conv, u.deadlines - (done + {r}));
      }
    } else {
      assert Affected(s, done + {r}) == a;
    }
  }

  lemma TidyIgnoresDeadlines(s: Dist, conv: Conv, deadlines: map<Request, int>)
    requires Tidy(s, conv)
    ensures Tidy(s.(deadlines := deadlines), conv)
  {
  }

  /** Failing groups and dropping deadlines may be exchanged. */
  lemma FailCommutes(s: Dist, convs: set<Conv>, requests: set<Request>, until: int)
    ensures Fail(s.(deadlines := s.deadlines - requests), convs, until)
         == Fail(s, convs, until).(deadlines := Fail(s, convs, until).deadlines - requests)
  {
    hide RegisteredFor, RetryAt;
    var t := s.(deadlines := s.deadlines - requests);
    assert KeysOf(t, convs) == KeysOf(s, convs);
    hide KeysOf;
    RemoveTwice(s.deadlines, requests, RequestsOf(s, convs));
    RemoveTwice(s.deadlines, RequestsOf(s, convs), requests);
    assert requests + RequestsOf(s, convs) == RequestsOf(s, convs) + requests;
  }

  class GroupKeyDistributor {
    var pendingDist: map<Conv, Pending>
    var chunkConv: map<Uuid, Conv>
    var requestConv: map<Request, Conv>
    var sends: map<Request, Uuid>
    var deadlines: map<Request, int>
    var timer: bool
    var backoff: map<Conv, int>
    var groupKeys: map<Conv, KeyId>
    var storedKeys: map<Conv, KeyId>
    var nextRequest: Request
    var nextUuid: Uuid
    var nextKey: KeyId
    ghost var rec: Record

    constructor ()
      ensures View() == Initial()
    {
      pendingDist, chunkConv, requestConv, sends, deadlines := map[], map[], map[], map[], map[];
      timer, backoff, groupKeys, storedKeys := false, map[], map[], map[];
      nextRequest, nextUuid, nextKey := 1, 1, 1;
      rec := Record(map[], {}, {}, []);
    }

    ghost function View(): Dist
      reads this
    {
      Dist(pendingDist, chunkConv, requestConv, sends, deadlines, timer, backoff, groupKeys, storedKeys,
           nextRequest, nextUuid, nextKey, rec)
    }

    /** Removes chunks from the other tables, one by one. */
    method RemoveChunks(chunks: map<Uuid, Request>)
      modifies this`chunkConv, this`requestConv, this`sends, this`deadlines
      ensures chunkConv == old(chunkConv) - chunks.Keys && requestConv == old(requestConv) - chunks.Values
      ensures sends == old(sends) - chunks.Values && deadlines == old(deadlines) - chunks.Values
    {
      var todo := chunks.Keys;
      ghost var done: set<Uuid> := {};
      assert RequestsAt(chunks, {}) == {};
      while todo != {}
        invariant todo <= chunks.Keys && done == chunks.Keys - todo
        invariant chunkConv == old(chunkConv) - done && requestConv == old(requestConv) - RequestsAt(chunks, done)
        invariant sends == old(sends) - RequestsAt(chunks, done) && deadlines == old(deadlines) - RequestsAt(chunks, done)
      {
        ghost var some := Member(todo);
        var c :| c in todo;
        var r := chunks[c];
        sends := sends - {r};
        deadlines := deadlines - {r};
        chunkConv := chunkConv - {c};
        requestConv := requestConv - {r};
        RequestsGrow(chunks, done, c);
        hide RequestsAt;
        RemoveTwice(old(sends), RequestsAt(chunks, done), {r});
        RemoveTwice(old(deadlines), RequestsAt(chunks, done), {r});
        RemoveTwice(old(requestConv), RequestsAt(chunks, done), {r});
        RemoveTwice(old(chunkConv), done, {c});
        done := done + {c};
        todo := todo - {c};
      }
      assert done == chunks.Keys;
      RequestsOfAll(chunks);
    }

    /** Removes a distribution with its entries in all tables. */
    method FailDistribution(conv: Conv, until: int)
      requires Tidy(View(), conv)
      modifies this`pendingDist, this`chunkConv, this`requestConv, this`sends, this`deadlines, this`backoff, this`rec
      ensures View() == Fail(old(View()), {conv}, until)
    {
      ghost var s := View();
      if conv !in pendingDist {
        NothingToFail(s, conv, until);
        hide Fail, Tidy;
        backoff := backoff[conv := until];
        return;
      }
      FailOne(s, conv, until);
      hide Fail, Tidy, Without;
      DropDistribution(conv);
      backoff := backoff[conv := until];
    }

    method DropDistribution(conv: Conv)
      requires conv in pendingDist
      modifies this`pendingDist, this`chunkConv, this`requestConv, this`sends, this`deadlines, this`rec
      ensures View() == Without(old(View()), conv)
    {
      rec := rec.(dead := rec.dead + {pendingDist[conv].key});
      RemoveChunks(pendingDist[conv].chunks);
      pendingDist := pendingDist - {conv};
    }

    /** Registers and sends a key's chunks one by one. */
    method BeginDistribution(conv: Conv, n: nat, now: int, until: int)
      requires Coherent(View())
      modifies this
      ensures View() == Begin(old(View()), conv, n, now, until) && Coherent(View())
    {
      hide Fail, Register;
      BeginKeepsCoherent(View(), conv, n, now, until);
      if conv <= 0 || n == 0 {
        return;
      }
      if conv in pendingDist {
        CoherentIsTidy(View(), conv);
        FailDistribution(conv, until);
      }
      backoff := backoff - {conv};
      hide Coherent;
      RegisterChunks(conv, n, now);
    }

    method RegisterChunks(conv: Conv, n: nat, now: int)
      requires n > 0
      modifies this`pendingDist, this`chunkConv, this`requestConv, this`sends, this`deadlines, this`timer
      modifies this`nextRequest, this`nextUuid, this`nextKey, this`rec
      ensures View() == Register(old(View()), conv, n, now)
    {
      ghost var uuids := Span(nextUuid, n);
      hide Numbered, AllTo, Span;
      var chunks := RegisterEach(conv, n, now);
      pendingDist := pendingDist[conv := Pending(nextKey, chunks)];
      rec := rec.(issued := rec.issued[nextKey := Issue(conv, uuids, now + IN_FLIGHT_TIMEOUT_MS)]);
      nextKey := nextKey + 1;
    }

    method RegisterEach(conv: Conv, n: nat, now: int) returns (chunks: map<Uuid, Request>)
      requires n > 0
      modifies this`chunkConv, this`requestConv, this`sends, this`deadlines, this`timer, this`nextRequest, this`nextUuid
      ensures nextRequest == old(nextRequest) + n && nextUuid == old(nextUuid) + n && timer
      ensures chunks == Numbered(old(nextUuid), n, old(nextRequest))
      ensures chunkConv == old(chunkConv) + AllTo(old(nextUuid), n, conv)
      ensures requestConv == old(requestConv) + AllTo(old(nextRequest), n, conv)
      ensures sends == old(sends) + Numbered(old(nextRequest), n, old(nextUuid))
      ensures deadlines == old(deadlines) + AllTo(old(nextRequest), n, now + IN_FLIGHT_TIMEOUT_MS)
    {
      chunks := map[];
      var u, r := nextUuid, nextRequest;
      ghost var due := now + IN_FLIGHT_TIMEOUT_MS;
      ghost var cs, rs, ss, ds := chunkConv, requestConv, sends, deadlines;
      EmptyTables(cs, u, conv);
      EmptyTables(rs, r, conv);
      EmptyTables(ds, r, due);
      NumberingStarts(ss, r, u);
      NumberingStarts(ss, u, r);
      hide Numbered, AllTo, Span;
      for i := 0 to n
        invariant nextRequest == r + i && nextUuid == u + i && (i > 0 ==> timer)
        invariant chunks == Numbered(u, i, r)
        invariant chunkConv == cs + AllTo(u, i, conv) && requestConv == rs + AllTo(r, i, conv)
        invariant sends == ss + Numbered(r, i, u) && deadlines == ds + AllTo(r, i, due)
      {
        TableGrows(cs, u, i, conv);
        TableGrows(rs, r, i, conv);
        TableGrows(ds, r, i, due);
        NumberingGrows(ss, r, i, u);
        NumberingGrows(map[], u, i, r);
        RegisterChunk(conv, now);
        chunks := chunks[u + i := r + i];
      }
    }

    method RegisterChunk(conv: Conv, now: int)
      modifies this`chunkConv, this`requestConv, this`sends, this`deadlines, this`timer, this`nextRequest, this`nextUuid
      ensures nextUuid == old(nextUuid) + 1 && nextRequest == old(nextRequest) + 1 && timer
      ensures chunkConv == old(chunkConv)[old(nextUuid) := conv]
      ensures requestConv == old(requestConv)[old(nextRequest) := conv]
      ensures sends == old(sends)[old(nextRequest) := old(nextUuid)]
      ensures deadlines == old(deadlines)[old(nextRequest) := now + IN_FLIGHT_TIMEOUT_MS]
    {
      chunkConv := chunkConv[nextUuid := conv];
      requestConv := requestConv[nextRequest := conv];
      sends := sends[nextRequest := nextUuid];
      deadlines := deadlines[nextRequest := now + IN_FLIGHT_TIMEOUT_MS];
      timer := true;
      nextUuid, nextRequest := nextUuid + 1, nextRequest + 1;
    }

    method CommitDistribution(conv: Conv, storeOpen: bool)
      modifies this`pendingDist, this`chunkConv, this`requestConv, this`backoff, this`storedKeys, this`groupKeys
      ensures View() == Commit(old(View()), conv, storeOpen)
    {
      if conv !in pendingDist {
        return;
      }
      var key := pendingDist[conv].key;
      RemovePending(conv);
      if storeOpen {
        storedKeys := storedKeys[conv := key];
      }
      groupKeys := groupKeys[conv := key];
    }

    method RemovePending(conv: Conv)
      requires conv in pendingDist
      modifies this`pendingDist, this`chunkConv, this`requestConv, this`backoff
      ensures pendingDist == old(pendingDist) - {conv} && backoff == old(backoff) - {conv}
      ensures chunkConv == old(chunkConv) - old(pendingDist)[conv].chunks.Keys
      ensures requestConv == old(requestConv) - old(pendingDist)[conv].chunks.Values
    {
      var chunks := pendingDist[conv].chunks;
      chunkConv := chunkConv - chunks.Keys;
      requestConv := requestConv - chunks.Values;
      pendingDist := pendingDist - {conv};
      backoff := backoff - {conv};
    }

    method ForgetInFlight(r: Request)
      modifies this`deadlines, this`timer
      ensures View() == Forget(old(View()), r)
    {
      if deadlines == map[] {
        return;
      }
      deadlines := deadlines - {r};
      if deadlines == map[] {
        timer := false;
      }
    }

    /** Strikes an acknowledged chunk off its distribution. */
    method AcknowledgeChunk(conv: Conv, chunk: Uuid, r: Request)
      requires conv in pendingDist
      modifies this`pendingDist, this`chunkConv, this`requestConv, this`rec
      ensures pendingDist == old(pendingDist)[conv := Pending(old(pendingDist)[conv].key, old(pendingDist)[conv].chunks - {chunk})]
      ensures chunkConv == old(chunkConv) - {chunk} && requestConv == old(requestConv) - {r}
      ensures rec == old(rec).(acked := old(rec).acked + {chunk})
    {
      rec := rec.(acked := rec.acked + {chunk});
      pendingDist := pendingDist[conv := Pending(pendingDist[conv].key, pendingDist[conv].chunks - {chunk})];
      chunkConv := chunkConv - {chunk};
      requestConv := requestConv - {r};
    }

    /** An acknowledged chunk, its request forgotten already; the last one commits the key. */
    method FinishChunk(ghost s: Dist, conv: Conv, chunk: Uuid, r: Request, storeOpen: bool)
      requires conv in s.pending && View() == Forget(s.(sends := s.sends - {r}), r)
      modifies this`pendingDist, this`chunkConv, this`requestConv, this`backoff, this`storedKeys, this`groupKeys, this`rec
      ensures var v := Acknowledge(s, conv, chunk, r);
              View() == if v.pending[conv].chunks == map[] then Commit(v, conv, storeOpen) else v
    {
      AcknowledgeChunk(conv, chunk, r);
      assert View() == Acknowledge(s, conv, chunk, r);
      hide Acknowledge, Commit, Forget;
      if pendingDist[conv].chunks == map[] {
        CommitDistribution(conv, storeOpen);
      }
    }

    method HandleSendResponse(r: Request, ok: bool, until: int, storeOpen: bool)
      requires Coherent(View())
      modifies this
      ensures View() == Reply(old(View()), r, ok, until, storeOpen) && Coherent(View())
    {
      ghost var s := View();
      ReplyKeepsCoherent(s, r, ok, until, storeOpen);
      if r !in sends {
        return;
      }
      var clientMessageId := sends[r];
      sends := sends - {r};
      ForgetInFlight(r);
      if clientMessageId in chunkConv {
        var conv := chunkConv[clientMessageId];
        CoherentIsTidy(s, conv);
        OpenSend(s, r); // a registered chunk is open, so its distribution is there
        hide Coherent, Fail, RequestsOf, ChunksOf, Registered, IsOpen, Acknowledge, Commit;
        if ok {
          FinishChunk(s, conv, clientMessageId, r, storeOpen);
        } else {
          FailDistribution(conv, until);
        }
      }
    }

    /** Requests past their deadline, collected before any of them is handled. */
    method CollectExpired(now: int) returns (expired: set<Request>)
      ensures expired == Expired(View(), now)
    {
      expired := {};
      var todo := deadlines.Keys;
      while todo != {}
        invariant todo <= deadlines.Keys && expired == Expired(View(), now) - todo
      {
        ghost var some := Member(todo);
        var r :| r in todo;
        if deadlines[r] <= now {
          expired := expired + {r};
        }
        todo := todo - {r};
      }
    }

    /** Handles the expired requests one after another, in whatever order. */
    method SweepInFlight(now: int, until: int)
      requires Coherent(View())
      modifies this
      ensures View() == Sweep(old(View()), now, until) && Coherent(View())
    {
      hide Fail, Swept, Coherent, Tidy, Affected;
      ghost var s := View();
      SweepKeepsCoherent(s, now, until);
      var expired := CollectExpired(now);
      var todo := expired;
      ghost var done: set<Request> := {};
      NothingSwept(s, until);
      while todo != {}
        invariant todo <= expired && done == expired - todo
        invariant View() == Swept(s, done, until)
      {
        ghost var some := Member(todo);
        var r :| r in todo;
        SweepOne(s, done, r, until);
        deadlines := deadlines - {r};
        if r in requestConv {
          FailDistribution(requestConv[r], until);
        }
        done, todo := done + {r}, todo - {r};
      }
      assert done == expired;
      SweptAll(s, now, until);
      if deadlines == map[] {
        timer := false;
      }
    }

    /** The key to encrypt with, if any: never while a distribution is pending. */
    method EnsureGroupKey(conv: Conv, storeOpen: bool) returns (ok: bool, key: KeyId)
      modifies this`groupKeys
      ensures ok <==> conv > 0 && conv !in pendingDist && (conv in old(groupKeys) || (storeOpen && conv in storedKeys))
      ensures ok ==> View() == old(View()).(active := old(groupKeys)[conv := key])
                     && key == if conv in old(groupKeys) then old(groupKeys)[conv] else storedKeys[conv]
      ensures !ok ==> View() == old(View())
    {
      if conv <= 0 || conv in pendingDist {
        return false, 0;
      }
      if conv in groupKeys {
        assert groupKeys[conv := groupKeys[conv]] == groupKeys;
        return true, groupKeys[conv];
      }
      if storeOpen && conv in storedKeys {
        groupKeys := groupKeys[conv := storedKeys[conv]];
        return true, groupKeys[conv];
      }
      return false, 0;
    }

    method EncryptGroupMessage(conv: Conv, storeOpen: bool, works: bool) returns (encrypted: bool)
      modifies this`groupKeys, this`storedKeys, this`rec
      ensures View() == Encrypt(old(View()), conv, storeOpen, works)
      ensures encrypted <==> |rec.sent| == |old(rec).sent| + 1
    {
      var ok, key := EnsureGroupKey(conv, storeOpen);
      if !ok || !works {
        return false;
      }
      if storeOpen {
        storedKeys := storedKeys[conv := key];
      }
      rec := rec.(sent := rec.sent + [Ciphertext(conv, key)]);
      return true;
    }

    /** What losing the connection does to the distributions. */
    method DiscardDistributions()
      modifies this
      ensures View() == Discard(old(View()))
    {
      hide KeysOf;
      rec := rec.(dead := rec.dead + KeysOf(View(), pendingDist.Keys));
      ClearTables();
    }

    method ClearTables()
      modifies this`pendingDist, this`chunkConv, this`requestConv, this`deadlines, this`timer, this`backoff, this`groupKeys
      ensures pendingDist == map[] && chunkConv == map[] && requestConv == map[] && deadlines == map[] && !timer
      ensures backoff == map[] && groupKeys == map[]
    {
      pendingDist, chunkConv, requestConv, deadlines, backoff, groupKeys := map[], map[], map[], map[], map[], map[];
      timer := false;
    }
  }
}
