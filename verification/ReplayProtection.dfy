/**
 Rejecting replayed requests: a timestamp tolerance in front of a cache of recently seen nonces.

 The request check reads the clock once and the cache reads it again; `checked` and `cached` are
 these two readings. Nonces are those left after trimming.
 */
module ReplayProtection {
  import opened Wrappers

  const TOLERANCE_SECS := 300
  const NONCE_TTL_SECS := 600
  const MAX_NONCES := 100000
  const MAX_NONCE_LENGTH := 128

  type Nonces = map<string, int> // nonce to the time it was seen

  function Abs(x: int): int {
    if x < 0 then -x else x
  }

  /** Without the entries older than the time to live. */
  function Purge(m: Nonces, now: int): Nonces {
    map n <- m | now - m[n] <= NONCE_TTL_SECS :: m[n]
  }

  /** At the cap, only the newer half of the time to live is kept. */
  function Evict(m: Nonces, now: int): Nonces {
    map n <- m | m[n] >= now - NONCE_TTL_SECS / 2 :: m[n]
  }

  function Tidy(m: Nonces, now: int): Nonces {
    if |m| > MAX_NONCES / 2 then Purge(m, now) else m
  }

  predicate IsFresh(m: Nonces, nonce: string, now: int) {
    nonce != "" && !(nonce in m && now - m[nonce] <= NONCE_TTL_SECS)
  }

  /** The cache after a check, and whether the nonce was accepted. */
  function CheckAndInsert(m: Nonces, nonce: string, now: int): (Nonces, bool) {
    if nonce == "" then (m, false)
    else
      var tidy := Tidy(m, now);
      if !IsFresh(tidy, nonce, now) then (tidy, false)
      else ((if |tidy| >= MAX_NONCES then Evict(tidy, now) else tidy)[nonce := now], true)
  }

  /** timestamp: None when missing or not a number. */
  datatype Op =
    | Request(timestamp: Option<int>, nonce: string, checked: int, cached: int)
    | PurgeTick(now: int)

  predicate WellFormed(timestamp: Option<int>, nonce: string, now: int) {
    && timestamp.Some? && timestamp.value > 0
    && Abs(now - timestamp.value) <= TOLERANCE_SECS
    && 0 < |nonce| <= MAX_NONCE_LENGTH
  }

  function Apply(m: Nonces, op: Op): (Nonces, bool) {
    match op
    case PurgeTick(now) => (Purge(m, now), false)
    case Request(ts, nonce, checked, cached) =>
      if WellFormed(ts, nonce, checked) then CheckAndInsert(m, nonce, cached) else (m, false)
  }

  function After(ops: seq<Op>): Nonces {
    if ops == [] then map[] else Apply(After(ops[..|ops| - 1]), ops[|ops| - 1]).0
  }

  /** Is the k-th operation an accepted request? */
  predicate Accepted(ops: seq<Op>, k: nat)
    requires k < |ops|
  {
    Apply(After(ops[..k]), ops[k]).1
  }

  function Time(op: Op): int {
    match op
    case Request(_, _, _, cached) => cached
    case PurgeTick(now) => now
  }

  predicate Monotone(ops: seq<Op>) {
    forall i, j :: 0 <= i < j < |ops| ==> Time(ops[i]) <= Time(ops[j])
  }

  predicate BelowCap(ops: seq<Op>) {
    forall k :: 0 <= k <= |ops| ==> |After(ops[..k])| < MAX_NONCES
  }

  /** The nonce is in the cache, with a time not before t. */
  predicate Seen(m: Nonces, nonce: string, t: int) {
    nonce in m && m[nonce] >= t
  }

  lemma PurgeShrinks(m: Nonces, now: int)
    ensures |Purge(m, now)| <= |m|
  {
    var rest := m.Keys - Purge(m, now).Keys;
    assert m.Keys == Purge(m, now).Keys + rest;
    assert |m.Keys| == |Purge(m, now).Keys| + |rest|;
    assert |m| == |m.Keys| && |Purge(m, now)| == |Purge(m, now).Keys|;
  }

  /** One operation keeps a seen nonce for its time to live, or half of it once the cap is reached. */
  lemma StaysSeen(m: Nonces, op: Op, nonce: string, t: int, span: int)
    requires Seen(m, nonce, t)
    requires t <= Time(op) <= t + span
    requires span <= NONCE_TTL_SECS / 2 || (span <= NONCE_TTL_SECS && |m| < MAX_NONCES)
    ensures Seen(Apply(m, op).0, nonce, t)
  {
    PurgeShrinks(m, Time(op));
  }

  lemma {:induction false} StaysSeenThrough(ops: seq<Op>, i: nat, k: nat, nonce: string, t: int, span: int)
    requires i < k <= |ops| && Monotone(ops)
    requires Seen(After(ops[..i + 1]), nonce, t) && t == Time(ops[i])
    requires k == i + 1 || Time(ops[k - 1]) <= t + span
    requires span <= NONCE_TTL_SECS / 2 || (span <= NONCE_TTL_SECS && BelowCap(ops))
    ensures Seen(After(ops[..k]), nonce, t)
  {
    if k > i + 1 {
      StaysSeenThrough(ops, i, k - 1, nonce, t, span);
      assert ops[..k][..k - 1] == ops[..k - 1];
      assert span > NONCE_TTL_SECS / 2 ==> |After(ops[..k - 1])| < MAX_NONCES;
      hide Apply;
      StaysSeen(After(ops[..k - 1]), ops[k - 1], nonce, t, span);
    }
  }

  lemma AcceptedIsSeen(ops: seq<Op>, i: nat)
    requires i < |ops| && Accepted(ops, i)
    ensures ops[i].Request? && Seen(After(ops[..i + 1]), ops[i].nonce, Time(ops[i]))
  {
    assert ops[..i + 1][..i] == ops[..i];
  }

  lemma SeenIsRejected(m: Nonces, op: Op, t: int)
    requires op.Request? && Seen(m, op.nonce, t) && t <= Time(op) <= t + NONCE_TTL_SECS
    ensures !Apply(m, op).1
  {
  }

  /** Two acceptances of one nonce are always more than half the time to live apart. */
  lemma NonceRejectedForHalfTtl(ops: seq<Op>, i: nat, j: nat)
    requires i < j < |ops| && Monotone(ops)
    requires Accepted(ops, i) && Accepted(ops, j) && ops[i].Request? && ops[j].Request? && ops[i].nonce == ops[j].nonce
    ensures Time(ops[j]) - Time(ops[i]) > NONCE_TTL_SECS / 2
  {
    AcceptedIsSeen(ops, i);
    if Time(ops[j]) - Time(ops[i]) <= NONCE_TTL_SECS / 2 {
      StaysSeenThrough(ops, i, j, ops[i].nonce, Time(ops[i]), NONCE_TTL_SECS / 2);
      SeenIsRejected(After(ops[..j]), ops[j], Time(ops[i]));
      assert false;
    }
  }

  /** Below the cap they are more than the whole time to live apart. */
  lemma NonceRejectedForTtl(ops: seq<Op>, i: nat, j: nat)
    requires i < j < |ops| && Monotone(ops) && BelowCap(ops)
    requires Accepted(ops, i) && Accepted(ops, j) && ops[i].Request? && ops[j].Request? && ops[i].nonce == ops[j].nonce
    ensures Time(ops[j]) - Time(ops[i]) > NONCE_TTL_SECS
  {
    AcceptedIsSeen(ops, i);
    if Time(ops[j]) - Time(ops[i]) <= NONCE_TTL_SECS {
      StaysSeenThrough(ops, i, j, ops[i].nonce, Time(ops[i]), NONCE_TTL_SECS);
      SeenIsRejected(After(ops[..j]), ops[j], Time(ops[i]));
      assert false;
    }
  }

  /** A request whose two readings of the clock agree. */
  predicate OneReading(op: Op) {
    op.Request? ==> op.checked == op.cached
  }

  /** One clock reading per request, the cap not reached: no (timestamp, nonce) is ever accepted twice. */
  lemma AcceptedAtMostOnce(ops: seq<Op>, i: nat, j: nat)
    requires i < j < |ops| && Monotone(ops) && BelowCap(ops)
    requires forall op <- ops :: OneReading(op)
    requires ops[i].Request? && ops[j].Request? && ops[i].nonce == ops[j].nonce && ops[i].timestamp == ops[j].timestamp
    ensures !(Accepted(ops, i) && Accepted(ops, j))
  {
    assert OneReading(ops[i]) && OneReading(ops[j]);
    if Accepted(ops, i) && Accepted(ops, j) {
      NonceRejectedForTtl(ops, i, j);
      assert false;
    }
  }

  /** Operation k, an accepted request, finds the cache full after tidying and drops a nonce seen at t. */
  predicate Evicts(ops: seq<Op>, k: nat, t: int) {
    && k < |ops| && ops[k].Request? && Accepted(ops, k)
    && |Tidy(After(ops[..k]), ops[k].cached)| >= MAX_NONCES
    && t < ops[k].cached - NONCE_TTL_SECS / 2
  }

  predicate EvictedBetween(ops: seq<Op>, i: nat, j: nat, t: int) {
    exists k: nat :: i < k < j && Evicts(ops, k, t)
  }

  /** The nonce of request i is not accepted again before position p. */
  predicate NotAgain(ops: seq<Op>, i: nat, p: nat)
    requires i < p <= |ops| && ops[i].Request?
  {
    forall k: nat :: i < k < p && ops[k].Request? && ops[k].nonce == ops[i].nonce ==> !Accepted(ops, k)
  }

  /** An accepted nonce stays in the cache, with its time, until it is too old or evicted. */
  lemma {:induction false} FateOfNonce(ops: seq<Op>, i: nat, p: nat)
    requires i < p <= |ops| && Monotone(ops) && ops[i].Request? && Accepted(ops, i) && NotAgain(ops, i, p)
    ensures var m, nonce, t := After(ops[..p]), ops[i].nonce, Time(ops[i]);
            if nonce in m then m[nonce] == t && !EvictedBetween(ops, i, p, t)
            else Time(ops[p - 1]) - t > NONCE_TTL_SECS || EvictedBetween(ops, i, p, t)
  {
    hide After, Apply, Tidy, EvictedBetween;
    AfterOneMore(ops, p - 1);
    var t := Time(ops[i]);
    if p == i + 1 {
      AcceptedIsSeen(ops, i);
      AcceptedNow(After(ops[..i]), ops[i]);
      NothingBetween(ops, i, t);
    } else {
      FateOfNonce(ops, i, p - 1);
      BetweenOneMore(ops, i, p - 1, t);
      NonceThrough(After(ops[..p - 1]), ops[p - 1], ops[i].nonce, t);
    }
  }

  lemma AfterOneMore(ops: seq<Op>, p: nat)
    requires p < |ops|
    ensures After(ops[..p + 1]) == Apply(After(ops[..p]), ops[p]).0
  {
    hide Apply;
    assert ops[..p + 1][..p] == ops[..p];
  }

  lemma AcceptedNow(m: Nonces, op: Op)
    requires op.Request? && Apply(m, op).1
    ensures op.nonce in Apply(m, op).0 && Apply(m, op).0[op.nonce] == Time(op)
  {
  }

  lemma NothingBetween(ops: seq<Op>, i: nat, t: int)
    ensures !EvictedBetween(ops, i, i + 1, t)
  {
  }

  lemma BetweenOneMore(ops: seq<Op>, i: nat, p: nat, t: int)
    requires i < p
    ensures EvictedBetween(ops, i, p + 1, t) <==> EvictedBetween(ops, i, p, t) || Evicts(ops, p, t)
  {
    hide Evicts;
  }

  /** What one operation that does not accept it does to a nonce. */
  lemma NonceThrough(m: Nonces, op: Op, nonce: string, t: int)
    requires op.Request? && op.nonce == nonce ==> !Apply(m, op).1
    ensures nonce !in m ==> nonce !in Apply(m, op).0
    ensures nonce in m && m[nonce] == t && nonce in Apply(m, op).0 ==>
              && Apply(m, op).0[nonce] == t
              && !(op.Request? && Apply(m, op).1 && |Tidy(m, op.cached)| >= MAX_NONCES && t < op.cached - NONCE_TTL_SECS / 2)
    ensures nonce in m && m[nonce] == t && nonce !in Apply(m, op).0 ==>
              || Time(op) - t > NONCE_TTL_SECS
              || (op.Request? && Apply(m, op).1 && |Tidy(m, op.cached)| >= MAX_NONCES && t < op.cached - NONCE_TTL_SECS / 2)
  {
  }

  /**
   In any run, the cap reached or not, one clock reading or two: the next request with a nonce that
   was accepted before is accepted exactly when it is within the tolerance and, since then, either more
   than the time to live has passed or a request that found the cache full came more than half of it later.
   */
  lemma AcceptedAgainExactlyWhen(ops: seq<Op>, i: nat, j: nat)
    requires i < j < |ops| && Monotone(ops)
    requires ops[i].Request? && ops[j].Request? && ops[i].nonce == ops[j].nonce
    requires Accepted(ops, i) && NotAgain(ops, i, j)
    ensures Accepted(ops, j)
       <==> && WellFormed(ops[j].timestamp, ops[j].nonce, ops[j].checked)
            && (Time(ops[j]) - Time(ops[i]) > NONCE_TTL_SECS || EvictedBetween(ops, i, j, Time(ops[i])))
  {
    FateOfNonce(ops, i, j);
    hide After, EvictedBetween;
    assert Time(ops[j - 1]) <= Time(ops[j]);
  }

  /** With one clock reading a (timestamp, nonce) is accepted again exactly after such an eviction. */
  lemma ReplayedExactlyWhen(ops: seq<Op>, i: nat, j: nat)
    requires i < j < |ops| && Monotone(ops)
    requires ops[i].Request? && ops[j].Request? && ops[i].nonce == ops[j].nonce && ops[i].timestamp == ops[j].timestamp
    requires OneReading(ops[i]) && OneReading(ops[j])
    requires Accepted(ops, i) && NotAgain(ops, i, j)
    ensures Accepted(ops, j)
       <==> WellFormed(ops[j].timestamp, ops[j].nonce, ops[j].checked) && EvictedBetween(ops, i, j, Time(ops[i]))
  {
    AcceptedAgainExactlyWhen(ops, i, j);
    AcceptedIsSeen(ops, i);
    hide EvictedBetween;
  }

  /** In any run a well-formed request is accepted the first time its nonce is used. */
  lemma {:induction false} FirstUseAccepted(ops: seq<Op>, j: nat)
    requires j < |ops| && ops[j].Request?
    requires forall k: nat :: k < j && ops[k].Request? && ops[k].nonce == ops[j].nonce ==> !Accepted(ops, k)
    ensures Accepted(ops, j) <==> WellFormed(ops[j].timestamp, ops[j].nonce, ops[j].checked)
  {
    UnusedIsUnknown(ops, j, ops[j].nonce);
    hide After, Evict;
  }

  lemma {:induction false} UnusedIsUnknown(ops: seq<Op>, j: nat, nonce: string)
    requires j <= |ops| && forall k: nat :: k < j && ops[k].Request? && ops[k].nonce == nonce ==> !Accepted(ops, k)
    ensures nonce !in After(ops[..j])
  {
    hide After, Apply;
    if j == 0 {
      NothingYet(ops);
    } else {
      UnusedIsUnknown(ops, j - 1, nonce);
      AfterOneMore(ops, j - 1);
      NonceThrough(After(ops[..j - 1]), ops[j - 1], nonce, 0);
    }
  }

  lemma NothingYet(ops: seq<Op>)
    ensures After(ops[..0]) == map[]
  {
  }

  /** Nothing in the cache is older than the time to live. */
  predicate AllFresh(m: Nonces, now: int) {
    forall n <- m :: now - m[n] <= NONCE_TTL_SECS
  }

  /**
   Expired nonces do not pile up: none is left after a tick of the cleaning timer, and none after a
   well-formed request that leaves more than half of the cap in the cache.
   */
  lemma ExpiredAreForgotten(ops: seq<Op>, op: Op)
    requires op.Request? ==> WellFormed(op.timestamp, op.nonce, op.checked) && |After(ops + [op])| > MAX_NONCES / 2 + 1
    ensures AllFresh(After(ops + [op]), Time(op))
  {
    assert (ops + [op])[..|ops|] == ops;
    var m := After(ops);
    hide After;
    if op.Request? {
      ManyAreTidied(m, op.nonce, op.cached);
    }
  }

  lemma ManyAreTidied(m: Nonces, nonce: string, now: int)
    requires |CheckAndInsert(m, nonce, now).0| > MAX_NONCES / 2 + 1
    ensures AllFresh(CheckAndInsert(m, nonce, now).0, now) || nonce == ""
  {
    var tidy := Tidy(m, now);
    PurgeShrinks(m, now);
    EvictShrinks(tidy, now);
    if |m| <= MAX_NONCES / 2 {
      assert |tidy[nonce := now]| <= |tidy| + 1;
      assert |Evict(tidy, now)[nonce := now]| <= |Evict(tidy, now)| + 1;
    }
    hide Evict;
    EvictKeepsFresh(tidy, now);
  }

  lemma EvictShrinks(m: Nonces, now: int)
    ensures |Evict(m, now)| <= |m|
  {
    var rest := m.Keys - Evict(m, now).Keys;
    assert m.Keys == Evict(m, now).Keys + rest;
    assert |m.Keys| == |Evict(m, now).Keys| + |rest|;
    assert |m| == |m.Keys| && |Evict(m, now)| == |Evict(m, now).Keys|;
  }

  lemma EvictKeepsFresh(m: Nonces, now: int)
    ensures AllFresh(Evict(m, now), now)
  {
  }

  // ---- A replay through a full cache ----

  function Name(n: nat): string
    requires n < 1000000
  {
    [(0x100 + n / 1000) as char, (0x100 + n % 1000) as char]
  }

  lemma NamesDiffer(n: nat, k: nat)
    requires n < 1000000 && k < 1000000 && Name(n) == Name(k)
    ensures n == k
  {
    assert Name(n)[0] == Name(k)[0] && Name(n)[1] == Name(k)[1];
  }

  /** n requests at time 700, all with timestamp 1000 and different nonces. */
  function Crowd(n: nat): seq<Op>
    requires n < 1000000
  {
    if n == 0 then [] else Crowd(n - 1) + [Request(Some(1000), Name(n - 1), 700, 700)]
  }

  lemma FreshNameAccepted(m: Nonces, name: string)
    requires |m| < MAX_NONCES && name !in m && |name| == 2 && forall n <- m :: m[n] == 700
    ensures Apply(m, Request(Some(1000), name, 700, 700)) == (m[name := 700], true)
    ensures |m[name := 700]| == |m| + 1
  {
    assert Tidy(m, 700) == m;
  }

  lemma {:induction false} CrowdFills(n: nat)
    requires n <= MAX_NONCES
    ensures var m := After(Crowd(n));
            && |Crowd(n)| == n && |m| == n
            && (forall k: nat :: k < 1000000 ==> (Name(k) in m <==> k < n))
            && (forall name <- m :: m[name] == 700)
    ensures n > 0 ==> Crowd(n)[0] == Request(Some(1000), Name(0), 700, 700)
  {
    hide After, Name, Apply, Crowd;
    CrowdStep(n);
    if n > 0 {
      CrowdFills(n - 1);
      forall k: nat | k < 1000000 && Name(k) == Name(n - 1)
        ensures k == n - 1
      {
        NamesDiffer(k, n - 1);
      }
      NameLength(n - 1);
      FreshNameAccepted(After(Crowd(n - 1)), Name(n - 1));
    }
  }

  lemma CrowdStep(n: nat)
    requires n < 1000000
    ensures n == 0 ==> Crowd(n) == [] && After(Crowd(n)) == map[]
    ensures n > 0 ==> var op := Request(Some(1000), Name(n - 1), 700, 700);
                      && Crowd(n) == Crowd(n - 1) + [op]
                      && After(Crowd(n)) == Apply(After(Crowd(n - 1)), op).0
  {
    hide Name, Apply;
    if n > 0 {
      assert Crowd(n)[..|Crowd(n - 1)|] == Crowd(n - 1);
    }
  }

  lemma NameLength(n: nat)
    requires n < 1000000
    ensures |Name(n)| == 2
  {
  }

  /** A cache full of entries of time 700 drops them all for a new nonce at 1001. */
  lemma FullCacheDropped(m: Nonces, name: string)
    requires |m| == MAX_NONCES && name !in m && |name| == 2 && forall n <- m :: m[n] == 700
    ensures Apply(m, Request(Some(1000), name, 1001, 1001)) == (map[name := 1001], true)
  {
    assert Tidy(m, 1001) == m;
    assert Evict(m, 1001) == map[];
  }

  /** Within its time to live and its tolerance, the very same request passes a second time once the cache has been full. */
  lemma ReplayThroughFullCache()
    ensures var ops := Crowd(MAX_NONCES) + [Request(Some(1000), Name(MAX_NONCES), 1001, 1001)] + [Request(Some(1000), Name(0), 1001, 1001)];
            && ops[0] == Request(Some(1000), Name(0), 700, 700)
            && |ops| == MAX_NONCES + 2 && Accepted(ops, 0) && Accepted(ops, MAX_NONCES + 1)
  {
    var crowd := Crowd(MAX_NONCES);
    var full := crowd + [Request(Some(1000), Name(MAX_NONCES), 1001, 1001)];
    var ops := full + [Request(Some(1000), Name(0), 1001, 1001)];
    CrowdFills(MAX_NONCES);
    hide Crowd;
    NameLength(0);
    NameLength(MAX_NONCES);
    assert ops[..0] == [];
    FreshNameAccepted(map[], Name(0));
    assert full[..|crowd|] == crowd && ops[..|full|] == full;
    FullCacheDropped(After(crowd), Name(MAX_NONCES));
    assert After(full) == map[Name(MAX_NONCES) := 1001];
    assert Name(0) in After(crowd) && Name(MAX_NONCES) !in After(crowd);
  }

  /** Below the cap it takes two readings of the clock: the second request is held up one second between them. */
  lemma ReplayAcceptedAfterDelay(nonce: string)
    requires 0 < |nonce| <= MAX_NONCE_LENGTH
    ensures Accepted([Request(Some(1000), nonce, 700, 700), Request(Some(1000), nonce, 1300, 1301)], 0)
    ensures Accepted([Request(Some(1000), nonce, 700, 700), Request(Some(1000), nonce, 1300, 1301)], 1)
  {
    var ops := [Request(Some(1000), nonce, 700, 700), Request(Some(1000), nonce, 1300, 1301)];
    assert ops[..0] == [] && ops[..1] == [ops[0]] && [ops[0]][..0] == [];
    assert After([ops[0]]) == map[nonce := 700];
  }

  class NonceCache {
    var nonces: Nonces

    constructor ()
      ensures nonces == map[]
    {
      nonces := map[];
    }

    /** Walks the entries and drops those beyond their time to live. */
    method PurgeExpired(now: int)
      modifies this
      ensures nonces == Purge(old(nonces), now)
    {
      var todo := nonces.Keys;
      while todo != {}
        invariant todo <= nonces.Keys <= old(nonces).Keys
        invariant forall n :: n in nonces <==> n in old(nonces) && (n in todo || now - old(nonces)[n] <= NONCE_TTL_SECS)
        invariant forall n <- nonces :: nonces[n] == old(nonces)[n]
      {
        var n :| n in todo;
        if now - nonces[n] > NONCE_TTL_SECS {
          nonces := nonces - {n};
        }
        todo := todo - {n};
      }
    }

    method DropOlderHalf(now: int)
      modifies this
      ensures nonces == Evict(old(nonces), now)
    {
      var cutoff := now - NONCE_TTL_SECS / 2;
      var todo := nonces.Keys;
      while todo != {}
        invariant todo <= nonces.Keys <= old(nonces).Keys
        invariant forall n :: n in nonces <==> n in old(nonces) && (n in todo || old(nonces)[n] >= cutoff)
        invariant forall n <- nonces :: nonces[n] == old(nonces)[n]
      {
        var n :| n in todo;
        if nonces[n] < cutoff {
          nonces := nonces - {n};
        }
        todo := todo - {n};
      }
    }

    method CheckNonce(nonce: string, now: int) returns (accepted: bool)
      modifies this
      ensures (nonces, accepted) == CheckAndInsert(old(nonces), nonce, now)
    {
      if nonce == "" {
        return false;
      }
      if |nonces| > MAX_NONCES / 2 {
        PurgeExpired(now);
      }
      if nonce in nonces && now - nonces[nonce] <= NONCE_TTL_SECS {
        return false;
      }
      if |nonces| >= MAX_NONCES {
        DropOlderHalf(now);
      }
      nonces := nonces[nonce := now];
      return true;
    }

    /** The whole check of one request. */
    method CheckReplayProtection(timestamp: Option<int>, nonce: string, checked: int, cached: int) returns (accepted: bool)
      modifies this
      ensures (nonces, accepted) == Apply(old(nonces), Request(timestamp, nonce, checked, cached))
    {
      if timestamp.None? || timestamp.value <= 0 {
        return false;
      }
      if Abs(checked - timestamp.value) > TOLERANCE_SECS {
        return false;
      }
      if nonce == "" || |nonce| > MAX_NONCE_LENGTH {
        return false;
      }
      accepted := CheckNonce(nonce, cached);
    }
  }
}
