/**
 The account event log: clients page through it from a cursor while events are appended and old
 ones pruned. Every SQL statement is one step, so a request's two reads and a prune's three
 statements can interleave with each other and with appends in any order.

 A `Log` remembers every event ever appended and which of them have been deleted. Sequence numbers
 are positive and never reused; creation times need not be ordered like them.
 */
module EventLog {
  import opened Wrappers

  const DEFAULT_LIMIT := 200
  const MAX_LIMIT := 1000

  datatype LogEvent = LogEvent(seqNo: int, user: int, created: int)

  datatype Log = Log(history: seq<LogEvent>, deleted: set<int>, watermark: int, lastSeq: int)

  function EffectiveLimit(limit: int): int {
    if limit <= 0 || limit > MAX_LIMIT then DEFAULT_LIMIT else limit
  }

  /** The user's events with lo < seq <= hi that are not in `gone`, in order. */
  function Between(h: seq<LogEvent>, gone: set<int>, user: int, lo: int, hi: int): seq<LogEvent> {
    if h == [] then []
    else
      var e := h[|h| - 1];
      Between(h[..|h| - 1], gone, user, lo, hi)
      + if e.user == user && lo < e.seqNo <= hi && e.seqNo !in gone then [e] else []
  }

  /** SELECT ... WHERE user AND seq > after ORDER BY seq LIMIT limit */
  function Page(log: Log, user: int, after: int, limit: int): seq<LogEvent>
    requires limit > 0
  {
    var all := Between(log.history, log.deleted, user, after, log.lastSeq);
    if |all| <= limit then all else all[..limit]
  }

  function PageEnd(page: seq<LogEvent>, after: int): int {
    if page == [] then after else page[|page| - 1].seqNo
  }

  predicate Present(log: Log, e: LogEvent) {
    e in log.history && e.seqNo !in log.deleted
  }

  /** The largest sequence number among the events present that were created before t; 0 if none. */
  function MaxBefore(h: seq<LogEvent>, gone: set<int>, t: int): int {
    if h == [] then 0
    else
      var rest := MaxBefore(h[..|h| - 1], gone, t);
      var e := h[|h| - 1];
      if e.seqNo !in gone && e.created < t && e.seqNo > rest then e.seqNo else rest
  }

  function MaxPresent(h: seq<LogEvent>, gone: set<int>): int {
    if h == [] then 0
    else
      var rest := MaxPresent(h[..|h| - 1], gone);
      var e := h[|h| - 1];
      if e.seqNo !in gone && e.seqNo > rest then e.seqNo else rest
  }

  function Append(log: Log, user: int, created: int): Log {
    log.(history := log.history + [LogEvent(log.lastSeq + 1, user, created)], lastSeq := log.lastSeq + 1)
  }

  function DeleteBefore(log: Log, t: int): Log {
    log.(deleted := log.deleted + set e <- log.history | e.created < t :: e.seqNo)
  }

  function Mark(log: Log, cutoff: int): Log {
    log.(watermark := if log.watermark < cutoff then cutoff else log.watermark)
  }

  // ---- Runs ----

  datatype Prune = NoPrune | Measured(cutoff: int) | Deleted(cutoff: int)

  datatype Reply = FullSync(upTo: int) | Events(page: seq<LogEvent>, end: int, hasMore: bool, skipped: set<int>)

  /** The client's one request: asked, past the watermark check, behind the watermark, or answered. */
  datatype Stage = Idle | Asked(after: int) | Passed(after: int) | Behind(watermark: int) | Answered(reply: Reply)

  datatype World = World(
    log: Log,
    prune: Prune,
    stage: Stage,
    user: int,
    start: int,
    cursor: int,
    applied: seq<LogEvent>,
    skipped: set<int>, // the user's events passed over because they were deleted by then
    flagged: bool      // a full synchronisation was requested
  )

  datatype Event =
    | Appended(user: int, created: int)
    | PruneMeasures(t: int)
    | PruneDeletes(t: int)
    | PruneMarks
    | PruneGivesUp
    | ClientAsks
    | ServerChecks(readable: bool)       // a watermark that cannot be read counts as 0
    | ServerReads(limit: int)
    | ServerReadFails                    // an empty page is answered
    | ServerReadsMaximum(readable: bool)
    | ReplyArrives(accepted: bool) // not accepted: the client could not purge and keeps its cursor
    | ReplyLost

  function Initial(user: int, start: int, log: Log): World {
    World(log, NoPrune, Idle, user, start, start, [], {}, false)
  }

  function SkippedBy(log: Log, user: int, lo: int, hi: int): set<int> {
    set e <- log.history | e.user == user && lo < e.seqNo <= hi && e.seqNo in log.deleted :: e.seqNo
  }

  function Serve(log: Log, user: int, after: int, limit: int): Reply {
    var page := Page(log, user, after, EffectiveLimit(limit));
    var end := PageEnd(page, after);
    Events(page, end, |page| >= EffectiveLimit(limit), SkippedBy(log, user, after, end))
  }

  function Ingest(w: World, reply: Reply, accepted: bool): World {
    match reply
    case FullSync(upTo) =>
      w.(flagged := true, cursor := if upTo > w.cursor then upTo else w.cursor, stage := Idle)
    case Events(page, end, hasMore, skipped) =>
      if !accepted then w.(stage := Idle)
      else w.(applied := w.applied + page, skipped := w.skipped + skipped,
              cursor := if end > w.cursor then end else w.cursor,
              stage := if hasMore then Asked(end) else Idle)
  }

  function Step(w: World, e: Event): World {
    match e
    case Appended(user, created) => w.(log := Append(w.log, user, created))
    case PruneMeasures(t) =>
      var cutoff := MaxBefore(w.log.history, w.log.deleted, t);
      w.(prune := if cutoff <= 0 then NoPrune else Measured(cutoff))
    case PruneDeletes(t) =>
      if w.prune.Measured? then w.(log := DeleteBefore(w.log, t), prune := Deleted(w.prune.cutoff)) else w
    case PruneMarks =>
      if w.prune.Deleted? then w.(log := Mark(w.log, w.prune.cutoff), prune := NoPrune) else w
    case PruneGivesUp => w.(prune := NoPrune)
    case ClientAsks => w.(stage := Asked(w.cursor))
    case ServerChecks(readable) =>
      if !w.stage.Asked? then w
      else if readable && w.stage.after > 0 && w.stage.after < w.log.watermark then w.(stage := Behind(w.log.watermark))
      else w.(stage := Passed(w.stage.after))
    case ServerReads(limit) =>
      if w.stage.Passed? then w.(stage := Answered(Serve(w.log, w.user, w.stage.after, limit))) else w
    case ServerReadFails =>
      if w.stage.Passed? then w.(stage := Answered(Events([], w.stage.after, false, {}))) else w
    case ServerReadsMaximum(readable) =>
      if !w.stage.Behind? then w
      else
        var top := if readable then MaxPresent(w.log.history, w.log.deleted) else 0;
        w.(stage := Answered(FullSync(if top > w.stage.watermark then top else w.stage.watermark)))
    case ReplyArrives(accepted) =>
      if w.stage.Answered? then Ingest(w, w.stage.reply, accepted) else w
    case ReplyLost => w.(stage := Idle)
  }

  function Run(w: World, es: seq<Event>): World {
    if es == [] then w else Step(Run(w, es[..|es| - 1]), es[|es| - 1])
  }

  // ---- Lists of events ----

  predicate Ordered(log: Log) {
    && log.lastSeq >= 0
    && (forall i, j :: 0 <= i < j < |log.history| ==> log.history[i].seqNo < log.history[j].seqNo)
    && (forall e <- log.history :: 0 < e.seqNo <= log.lastSeq)
  }

  predicate Increasing(h: seq<LogEvent>) {
    forall i, j :: 0 <= i < j < |h| ==> h[i].seqNo < h[j].seqNo
  }

  lemma {:induction false} BetweenMembers(h: seq<LogEvent>, gone: set<int>, user: int, lo: int, hi: int)
    requires Increasing(h)
    ensures forall e :: e in Between(h, gone, user, lo, hi) <==>
              e in h && e.user == user && lo < e.seqNo <= hi && e.seqNo !in gone
    ensures Increasing(Between(h, gone, user, lo, hi))
  {
    if h != [] {
      var front, last := h[..|h| - 1], h[|h| - 1];
      BetweenMembers(front, gone, user, lo, hi);
      var b := Between(front, gone, user, lo, hi);
      assert h == front + [last];
      forall i | 0 <= i < |b|
        ensures b[i].seqNo < last.seqNo
      {
        assert b[i] in b && b[i] in front;
      }
      assert Between(h, gone, user, lo, hi) == b || Between(h, gone, user, lo, hi) == b + [last];
    }
  }

  lemma BetweenLast(h: seq<LogEvent>, gone: set<int>, user: int, lo: int, hi: int)
    requires h != []
    ensures var e := h[|h| - 1];
            Between(h, gone, user, lo, hi) == Between(h[..|h| - 1], gone, user, lo, hi)
              + if e.user == user && lo < e.seqNo <= hi && e.seqNo !in gone then [e] else []
  {
  }

  /** Two adjacent stretches make one. */
  lemma {:induction false} BetweenJoins(h: seq<LogEvent>, g1: set<int>, g2: set<int>, user: int, lo: int, mid: int, hi: int)
    requires Increasing(h) && lo <= mid <= hi
    requires forall e <- h :: lo < e.seqNo <= mid && e.user == user ==> e.seqNo !in g2 - g1
    requires forall e <- h :: mid < e.seqNo <= hi && e.user == user ==> e.seqNo !in g1 - g2
    ensures Between(h, g1, user, lo, mid) + Between(h, g2, user, mid, hi) == Between(h, g1 + g2, user, lo, hi)
  {
    if h == [] {
    } else {
      hide Between;
      var front, last := h[..|h| - 1], h[|h| - 1];
      BetweenJoins(front, g1, g2, user, lo, mid, hi);
      BetweenLast(h, g1, user, lo, mid);
      BetweenLast(h, g2, user, mid, hi);
      BetweenLast(h, g1 + g2, user, lo, hi);
      assert last in h;
      if last.seqNo <= mid {
        NothingAbove(front, g2, user, mid, hi, last.seqNo);
      }
    }
  }

  lemma {:induction false} NothingAbove(h: seq<LogEvent>, gone: set<int>, user: int, lo: int, hi: int, bound: int)
    requires bound <= lo && forall e <- h :: e.seqNo < bound
    ensures Between(h, gone, user, lo, hi) == []
  {
    if h != [] {
      assert h[|h| - 1] in h;
      NothingAbove(h[..|h| - 1], gone, user, lo, hi, bound);
    }
  }

  /** The first k events found are all those up to the k-th one's number. */
  lemma {:induction false} PrefixIsBetween(h: seq<LogEvent>, gone: set<int>, user: int, lo: int, hi: int, k: nat)
    requires Increasing(h) && 0 < k <= |Between(h, gone, user, lo, hi)|
    ensures var all := Between(h, gone, user, lo, hi);
            all[..k] == Between(h, gone, user, lo, all[k - 1].seqNo) && lo < all[k - 1].seqNo <= hi
  {
    var all := Between(h, gone, user, lo, hi);
    var front, last := h[..|h| - 1], h[|h| - 1];
    var before := Between(front, gone, user, lo, hi);
    if k <= |before| {
      PrefixIsBetween(front, gone, user, lo, hi, k);
      assert all[..k] == before[..k] && all[k - 1] == before[k - 1];
      BetweenMembers(front, gone, user, lo, hi);
      assert before[k - 1] in before && before[k - 1] in front;
    } else {
      SameBelow(front, gone, user, lo, hi, last.seqNo);
    }
  }

  lemma {:induction false} SameBelow(h: seq<LogEvent>, gone: set<int>, user: int, lo: int, hi: int, hi': int)
    requires forall e <- h :: e.seqNo <= hi <==> e.seqNo <= hi'
    ensures Between(h, gone, user, lo, hi) == Between(h, gone, user, lo, hi')
  {
    if h != [] {
      assert h[|h| - 1] in h;
      SameBelow(h[..|h| - 1], gone, user, lo, hi, hi');
    }
  }

  /** A page is all that is present up to its end. */
  lemma PageIsBetween(log: Log, user: int, after: int, limit: int)
    requires Ordered(log) && limit > 0
    ensures var page := Page(log, user, after, limit);
            var end := PageEnd(page, after);
            && page == Between(log.history, SkippedBy(log, user, after, end), user, after, end)
            && after <= end && (end == after || end <= log.lastSeq) && |page| <= limit
  {
    var all := Between(log.history, log.deleted, user, after, log.lastSeq);
    var page := Page(log, user, after, limit);
    var end := PageEnd(page, after);
    if all == [] {
      EmptyRange(log.history, SkippedBy(log, user, after, after), user, after);
    } else {
      PrefixIsBetween(log.history, log.deleted, user, after, log.lastSeq, |page|);
      SameDeleted(log.history, log.deleted, SkippedBy(log, user, after, end), user, after, end);
    }
  }

  lemma {:induction false} EmptyRange(h: seq<LogEvent>, gone: set<int>, user: int, at: int)
    ensures Between(h, gone, user, at, at) == []
  {
    if h != [] {
      EmptyRange(h[..|h| - 1], gone, user, at);
    }
  }

  lemma {:induction false} SameDeleted(h: seq<LogEvent>, g1: set<int>, g2: set<int>, user: int, lo: int, hi: int)
    requires forall e <- h :: e.user == user && lo < e.seqNo <= hi ==> (e.seqNo in g1 <==> e.seqNo in g2)
    ensures Between(h, g1, user, lo, hi) == Between(h, g2, user, lo, hi)
  {
    if h != [] {
      assert h[|h| - 1] in h;
      SameDeleted(h[..|h| - 1], g1, g2, user, lo, hi);
    }
  }

  // ---- Every run: what is applied, and what is missed ----

  predicate Within(s: set<int>, deleted: set<int>, lo: int, hi: int) {
    s <= deleted && forall x <- s :: lo < x <= hi
  }

  /** What has been read accounts for the user's history up to the cursor. */
  predicate Exact(w: World) {
    && w.start <= w.cursor <= w.log.lastSeq
    && Within(w.skipped, w.log.deleted, w.start, w.cursor)
    && w.applied == Between(w.log.history, w.skipped, w.user, w.start, w.cursor)
    && (w.stage.Asked? || w.stage.Passed? ==> w.stage.after == w.cursor)
    && (w.stage.Answered? && w.stage.reply.Events? ==>
          var r := w.stage.reply;
          && w.cursor <= r.end <= w.log.lastSeq
          && Within(r.skipped, w.log.deleted, w.cursor, r.end)
          && r.page == Between(w.log.history, r.skipped, w.user, w.cursor, r.end))
  }

  predicate Sound(w: World) {
    Ordered(w.log) && w.start <= w.cursor && (w.flagged || Exact(w))
  }

  lemma AppendKeepsSound(w: World, user: int, created: int)
    requires Sound(w)
    ensures Sound(w.(log := Append(w.log, user, created)))
  {
    var log := Append(w.log, user, created);
    var last := log.history[|log.history| - 1];
    assert log.history[..|log.history| - 1] == w.log.history;
    forall gone, lo, hi | hi <= w.log.lastSeq
      ensures Between(log.history, gone, w.user, lo, hi) == Between(w.log.history, gone, w.user, lo, hi)
    {
    }
    hide Between;
    assert Ordered(log);
  }

  lemma IngestKeepsSound(w: World, accepted: bool)
    requires Sound(w) && w.stage.Answered?
    ensures Sound(Ingest(w, w.stage.reply, accepted))
  {
    var r := w.stage.reply;
    if !w.flagged && r.Events? && accepted {
      BetweenJoins(w.log.history, w.skipped, r.skipped, w.user, w.start, w.cursor, r.end);
    }
  }

  lemma ReadKeepsSound(w: World, limit: int)
    requires Sound(w)
    ensures Sound(Step(w, ServerReads(limit)))
  {
    hide Between, Page;
    if w.stage.Passed? {
      PageIsBetween(w.log, w.user, w.stage.after, EffectiveLimit(limit));
    }
  }

  lemma ReadFailureKeepsSound(w: World)
    requires Sound(w)
    ensures Sound(Step(w, ServerReadFails))
  {
    EmptyRange(w.log.history, {}, w.user, w.cursor);
    hide Between, Page;
  }

  /** Prunes delete and mark; they move no event. */
  lemma PruneKeepsSound(w: World, e: Event)
    requires Sound(w) && (e.PruneMeasures? || e.PruneDeletes? || e.PruneMarks? || e.PruneGivesUp?)
    ensures Sound(Step(w, e))
  {
    hide Between, Page, Serve, MaxBefore;
  }

  lemma StepKeepsSound(w: World, e: Event)
    requires Sound(w)
    ensures Sound(Step(w, e)) && Step(w, e).cursor >= w.cursor
  {
    hide Between, Page, Serve, MaxPresent, MaxBefore, DeleteBefore, Append;
    match e {
      case Appended(user, created) => AppendKeepsSound(w, user, created);
      case ServerReads(limit) => ReadKeepsSound(w, limit);
      case ReplyArrives(accepted) =>
        if w.stage.Answered? {
          IngestKeepsSound(w, accepted);
        }
      case PruneMeasures(_) => PruneKeepsSound(w, e);
      case PruneDeletes(_) => PruneKeepsSound(w, e);
      case PruneMarks => PruneKeepsSound(w, e);
      case PruneGivesUp => PruneKeepsSound(w, e);
      case ClientAsks =>
      case ServerChecks(_) =>
      case ServerReadFails => ReadFailureKeepsSound(w);
      case ServerReadsMaximum(_) =>
      case ReplyLost =>
    }
  }

  lemma {:induction false} RunKeepsSound(w: World, es: seq<Event>)
    requires Sound(w)
    ensures Sound(Run(w, es)) && Run(w, es).cursor >= w.cursor
    ensures Run(w, es).user == w.user && Run(w, es).start == w.start
  {
    if es != [] {
      RunKeepsSound(w, es[..|es| - 1]);
      StepKeepsSound(Run(w, es[..|es| - 1]), es[|es| - 1]);
      StepKeepsOwner(Run(w, es[..|es| - 1]), es[|es| - 1]);
      hide Sound, Step;
    }
  }

  lemma StepKeepsOwner(w: World, e: Event)
    ensures Step(w, e).user == w.user && Step(w, e).start == w.start
  {
    hide Serve, MaxBefore, MaxPresent, DeleteBefore, Append;
  }

  lemma InitiallySound(user: int, start: int, log: Log)
    requires Ordered(log) && start <= log.lastSeq
    ensures Sound(Initial(user, start, log))
  {
    EmptyRange(log.history, {}, user, start);
  }

  // ---- Full synchronisations ----

  lemma {:induction false} MaxBeforeBounds(h: seq<LogEvent>, gone: set<int>, t: int)
    ensures forall e <- h :: e.seqNo !in gone && e.created < t ==> e.seqNo <= MaxBefore(h, gone, t)
    ensures MaxBefore(h, gone, t) >= 0
    ensures MaxBefore(h, gone, t) > 0 ==>
              exists e <- h :: e.seqNo !in gone && e.created < t && e.seqNo == MaxBefore(h, gone, t)
  {
    if h != [] {
      var front, last := h[..|h| - 1], h[|h| - 1];
      MaxBeforeBounds(front, gone, t);
      assert h == front + [last];
      var m := MaxBefore(front, gone, t);
      if MaxBefore(h, gone, t) == m > 0 {
        var e :| e in front && e.seqNo !in gone && e.created < t && e.seqNo == m;
        assert e in h;
      } else if MaxBefore(h, gone, t) > 0 {
        assert last in h;
      }
    }
  }

  lemma {:induction false} MaxPresentBounds(h: seq<LogEvent>, gone: set<int>)
    ensures forall e <- h :: e.seqNo !in gone ==> e.seqNo <= MaxPresent(h, gone)
    ensures MaxPresent(h, gone) >= 0
    ensures MaxPresent(h, gone) > 0 ==> exists e <- h :: e.seqNo !in gone && e.seqNo == MaxPresent(h, gone)
  {
    if h != [] {
      var front, last := h[..|h| - 1], h[|h| - 1];
      MaxPresentBounds(front, gone);
      assert h == front + [last];
      var m := MaxPresent(front, gone);
      if MaxPresent(h, gone) == m > 0 {
        var e :| e in front && e.seqNo !in gone && e.seqNo == m;
        assert e in h;
      } else if MaxPresent(h, gone) > 0 {
        assert last in h;
      }
    }
  }

  /** The number a client continues from: nothing deleted under `watermark`, and nothing present, is above it. */
  predicate ContinuesFrom(log: Log, watermark: int, readable: bool, upTo: int) {
    && watermark <= upTo
    && (readable ==> forall e <- log.history :: e.seqNo !in log.deleted ==> e.seqNo <= upTo)
    && (upTo == watermark || exists e <- log.history :: e.seqNo !in log.deleted && e.seqNo == upTo)
  }

  /**
   A full synchronisation names the watermark or a number that is present, at least as late as the
   watermark and, if the log could be read, as everything present, and never beyond the log.
   */
  lemma FullSyncNumber(log: Log, watermark: int, readable: bool)
    requires Ordered(log) && watermark >= 0
    ensures var top := if readable then MaxPresent(log.history, log.deleted) else 0;
            var upTo := if top > watermark then top else watermark;
            && ContinuesFrom(log, watermark, readable, upTo)
            && (watermark <= log.lastSeq ==> upTo <= log.lastSeq)
  {
    MaxPresentBounds(log.history, log.deleted);
    hide MaxPresent;
  }

  /**
   A client behind the watermark that takes the full synchronisation the server then calls for continues
   from a number that passes the server's check, and has everything else still to come.
   */
  lemma FullSyncHeals(w: World, readable: bool, accepted: bool)
    requires Ordered(w.log) && w.stage == Asked(w.cursor) && 0 < w.cursor < w.log.watermark
    ensures var t := Step(Step(Step(w, ServerChecks(true)), ServerReadsMaximum(readable)), ReplyArrives(accepted));
            && t.flagged && t.stage.Idle? && t.applied == w.applied && t.log == w.log
            && ContinuesFrom(w.log, w.log.watermark, readable, t.cursor)
            && Step(Step(t, ClientAsks), ServerChecks(true)).stage == Passed(t.cursor)
  {
    FullSyncNumber(w.log, w.log.watermark, readable);
    hide MaxPresent, MaxBefore, Serve;
  }

  /** No number that is remembered or on its way is beyond the log. */
  predicate Bounded(w: World) {
    && Ordered(w.log) && 0 <= w.log.watermark <= w.log.lastSeq
    && (!w.prune.NoPrune? ==> w.prune.cutoff <= w.log.lastSeq)
    && (w.stage.Behind? ==> 0 <= w.stage.watermark <= w.log.lastSeq)
    && (w.stage.Answered? && w.stage.reply.FullSync? ==> w.stage.reply.upTo <= w.log.lastSeq)
  }

  lemma StepKeepsBounded(w: World, e: Event)
    requires Bounded(w)
    ensures Bounded(Step(w, e))
  {
    hide Page, MaxBefore, MaxPresent;
    match e {
      case PruneMeasures(t) => MaxBeforeBounds(w.log.history, w.log.deleted, t);
      case ServerReadsMaximum(readable) =>
        if w.stage.Behind? {
          FullSyncNumber(w.log, w.stage.watermark, readable);
        }
      case _ =>
    }
  }

  predicate TakesFullSync(w: World, e: Event) {
    e.ReplyArrives? && w.stage.Answered? && w.stage.reply.FullSync?
  }

  /** The cursor the last full synchronisation set, and how many events had been applied by then. */
  function LastFullSync(first: World, es: seq<Event>): (int, nat) {
    if es == [] then (first.cursor, |first.applied|)
    else if TakesFullSync(Run(first, es[..|es| - 1]), es[|es| - 1]) then (Run(first, es).cursor, |Run(first, es).applied|)
    else LastFullSync(first, es[..|es| - 1])
  }

  /** The client as if it had begun with its last full synchronisation. */
  function Since(w: World, base: int, done: nat): World
    requires done <= |w.applied|
  {
    w.(start := base, applied := w.applied[done..], skipped := (set x <- w.skipped | x > base), flagged := false)
  }

  ghost predicate SoundSince(w: World, base: int, done: nat) {
    done <= |w.applied| && Sound(Since(w, base, done))
  }

  lemma StepCommutes(w: World, e: Event, base: int, done: nat)
    requires SoundSince(w, base, done) && !TakesFullSync(w, e)
    ensures done <= |Step(w, e).applied| && Since(Step(w, e), base, done) == Step(Since(w, base, done), e)
  {
    hide Serve, Append, DeleteBefore, MaxBefore, MaxPresent, Between;
    if e == ReplyArrives(true) && w.stage.Answered? {
      var r := w.stage.reply;
      assert (w.applied + r.page)[done..] == w.applied[done..] + r.page;
      assert forall x <- r.skipped :: x > base;
    }
  }

  lemma FullSyncStarts(w: World, e: Event, base: int, done: nat)
    requires SoundSince(w, base, done) && Bounded(w) && TakesFullSync(w, e)
    ensures var t := Step(w, e); SoundSince(t, t.cursor, |t.applied|)
  {
    var t := Step(w, e);
    var u := Since(t, t.cursor, |t.applied|);
    assert u.applied == [];
    assert forall x <- w.skipped :: x <= w.cursor by {
      forall x | x in w.skipped
        ensures x <= w.cursor
      {
        assert x > base ==> x in Since(w, base, done).skipped;
      }
    }
    assert u.skipped == {};
    EmptyRange(w.log.history, {}, w.user, t.cursor);
    hide Between;
  }

  lemma {:induction false} RunSinceSync(first: World, es: seq<Event>)
    requires Bounded(first) && SoundSince(first, first.cursor, |first.applied|)
    ensures var (base, done) := LastFullSync(first, es); SoundSince(Run(first, es), base, done)
    ensures Bounded(Run(first, es))
  {
    if es != [] {
      var front, last := es[..|es| - 1], es[|es| - 1];
      RunSinceSync(first, front);
      var (base, done) := LastFullSync(first, front);
      var w := Run(first, front);
      hide Step, Bounded, TakesFullSync;
      StepKeepsBounded(w, last);
      if TakesFullSync(w, last) {
        FullSyncStarts(w, last, base, done);
      } else {
        StepCommutes(w, last, base, done);
        StepKeepsSound(Since(w, base, done), last);
        hide Sound, Since;
      }
    }
  }

  lemma {:induction false} UnflaggedNeverSynced(first: World, es: seq<Event>)
    requires !Run(first, es).flagged
    ensures !first.flagged && LastFullSync(first, es) == (first.cursor, |first.applied|)
  {
    if es != [] {
      hide Serve, Append, DeleteBefore, MaxBefore, MaxPresent;
      var w := Run(first, es[..|es| - 1]);
      assert Step(w, es[|es| - 1]).flagged <==> w.flagged || TakesFullSync(w, es[|es| - 1]);
      UnflaggedNeverSynced(first, es[..|es| - 1]);
    }
  }

  /**
   In any run the cursor stays within the log, full synchronisations included, and what was applied since
   the last one is exactly the user's events above the cursor it set, but those a page passed over.
   */
  lemma AppliedSinceFullSync(user: int, start: int, log: Log, es: seq<Event>)
    requires Ordered(log) && start <= log.lastSeq && 0 <= log.watermark <= log.lastSeq
    ensures var first := Initial(user, start, log);
            var w := Run(first, es);
            var (base, done) := LastFullSync(first, es);
            && start <= base <= w.cursor <= w.log.lastSeq && done <= |w.applied|
            && w.applied[done..] == Between(w.log.history, w.skipped, user, base, w.cursor)
            && (forall x <- w.skipped :: x > base ==> x in w.log.deleted && x <= w.cursor)
            && (!w.flagged ==> base == start && done == 0)
  {
    var first := Initial(user, start, log);
    var w := Run(first, es);
    var (base, done) := LastFullSync(first, es);
    InitiallySound(user, start, log);
    assert Since(first, start, 0) == first;
    RunSinceSync(first, es);
    RunKeepsSound(first, es);
    SyncsAreLater(first, es);
    if !w.flagged {
      UnflaggedNeverSynced(first, es);
    }
    hide Run, LastFullSync;
    var u := Since(w, base, done);
    SameDeleted(w.log.history, u.skipped, w.skipped, user, base, w.cursor);
    assert forall x <- w.skipped :: x > base ==> x in u.skipped;
    hide Between;
  }

  lemma {:induction false} SyncsAreLater(first: World, es: seq<Event>)
    requires Sound(first)
    ensures first.cursor <= LastFullSync(first, es).0
  {
    if es != [] {
      SyncsAreLater(first, es[..|es| - 1]);
      RunKeepsSound(first, es);
      hide Sound, Step;
    }
  }

  // ---- When paging stops ----

  /** The most events one page may hold: what the client asks for, from 1 to 1000, or 200. */
  function PageBound(limit: int): nat {
    if 1 <= limit <= 1000 then limit else 200
  }

  /** A page is full, or everything. */
  lemma PageFullOrAll(log: Log, user: int, after: int, limit: int)
    requires Ordered(log)
    ensures var page := Page(log, user, after, EffectiveLimit(limit));
            && |page| <= EffectiveLimit(limit) == PageBound(limit)
            && (|page| < PageBound(limit) ==> forall e <- log.history ::
                  Present(log, e) && e.user == user && e.seqNo > after ==> e in page)
  {
    BetweenMembers(log.history, log.deleted, user, after, log.lastSeq);
    hide Between;
  }

  lemma PageTaken(w: World, limit: int)
    requires w.stage.Passed?
    ensures var page := Page(w.log, w.user, w.stage.after, EffectiveLimit(limit));
            var t := Step(Step(w, ServerReads(limit)), ReplyArrives(true));
            && t.applied == w.applied + page
            && t.stage == if |page| >= EffectiveLimit(limit) then Asked(PageEnd(page, w.stage.after)) else Idle
  {
    hide Page, EffectiveLimit, PageEnd, SkippedBy, MaxBefore, MaxPresent, DeleteBefore, Append;
  }

  /**
   A page the client takes leaves it idle only if everything of the user that was present above its
   cursor is now applied; otherwise the page was full, and the next one is asked for from its end.
   */
  lemma PagingStopsAtEnd(w: World, limit: int)
    requires Ordered(w.log) && w.stage.Passed?
    ensures var t := Step(Step(w, ServerReads(limit)), ReplyArrives(true));
            && w.applied <= t.applied && |t.applied| - |w.applied| <= PageBound(limit)
            && (t.stage.Idle? ==> forall e <- w.log.history ::
                  Present(w.log, e) && e.user == w.user && e.seqNo > w.stage.after ==> e in t.applied[|w.applied|..])
            && (!t.stage.Idle? ==>
                  && |t.applied| - |w.applied| == PageBound(limit) && t.stage == Asked(t.applied[|t.applied| - 1].seqNo))
  {
    hide Page, Step, Present;
    var page := Page(w.log, w.user, w.stage.after, EffectiveLimit(limit));
    PageFullOrAll(w.log, w.user, w.stage.after, limit);
    PageTaken(w, limit);
    var t := Step(Step(w, ServerReads(limit)), ReplyArrives(true));
    assert t.applied[|w.applied|..] == page;
  }

  // ---- Which reads cost an event ----

  /** The server reads a page at this step. */
  predicate ReadsPage(w: World, e: Event) {
    e.ServerReads? && w.stage.Passed?
  }

  /** Number x: an event of the user above the cursor and up to the page's last number, and already deleted. */
  predicate Misses(w: World, e: Event, x: int)
    requires ReadsPage(w, e)
  {
    var end := PageEnd(Page(w.log, w.user, w.stage.after, EffectiveLimit(e.limit)), w.stage.after);
    w.stage.after < x <= end && x in w.log.deleted && exists own <- w.log.history :: own.seqNo == x && own.user == w.user
  }

  /** Step k reads a page, and its reply is on its way to the client ever since. */
  predicate UnderWay(first: World, es: seq<Event>, k: nat) {
    && k < |es| && ReadsPage(Run(first, es[..k]), es[k])
    && forall i :: k < i <= |es| ==> Run(first, es[..i]).stage == Run(first, es[..k + 1]).stage
  }

  /** The reply read at step k, which the client takes at step j, misses x. */
  predicate Overtaken(first: World, es: seq<Event>, k: nat, j: nat, x: int) {
    && k < j < |es| && es[j] == ReplyArrives(true) && UnderWay(first, es[..j], k)
    && ReadsPage(Run(first, es[..k]), es[k]) && Misses(Run(first, es[..k]), es[k], x)
  }

  lemma MissesAreSkipped(w: World, e: Event)
    requires ReadsPage(w, e)
    ensures Step(w, e).stage.Answered? && Step(w, e).stage.reply.Events?
    ensures forall x :: Misses(w, e, x) <==> x in Step(w, e).stage.reply.skipped
  {
    hide Page;
    var end := PageEnd(Page(w.log, w.user, w.stage.after, EffectiveLimit(e.limit)), w.stage.after);
    var skipped := SkippedBy(w.log, w.user, w.stage.after, end);
    assert Step(w, e).stage.reply.skipped == skipped;
    forall x
      ensures Misses(w, e, x) <==> x in skipped
    {
      if x in skipped {
        var own :| own in w.log.history && own.user == w.user && w.stage.after < own.seqNo <= end && own.seqNo in w.log.deleted && own.seqNo == x;
        assert Misses(w, e, x);
      }
    }
  }

  /** A page on its way that misses something was read at some step. */
  ghost predicate Traced(first: World, es: seq<Event>) {
    var w := Run(first, es);
    w.stage.Answered? && w.stage.reply.Events? && w.stage.reply.skipped != {} ==> exists k: nat :: UnderWay(first, es, k)
  }

  /** A step leaves a page under way only if it was, or if it reads it. */
  lemma StepTraces(w: World, e: Event)
    requires Step(w, e).stage.Answered? && Step(w, e).stage.reply.Events? && Step(w, e).stage.reply.skipped != {}
    ensures Step(w, e).stage == w.stage || ReadsPage(w, e)
  {
    hide Serve, Append, DeleteBefore, MaxBefore, MaxPresent;
  }

  lemma UnderWayLonger(first: World, es: seq<Event>, e: Event, k: nat)
    requires UnderWay(first, es, k) && Run(first, es + [e]).stage == Run(first, es).stage
    ensures UnderWay(first, es + [e], k)
  {
    hide Run, ReadsPage;
    var all := es + [e];
    assert forall i :: 0 <= i <= |es| ==> all[..i] == es[..i];
    assert all[..|all|] == all && es[..|es|] == es;
    forall i | k < i <= |all|
      ensures Run(first, all[..i]).stage == Run(first, all[..k + 1]).stage
    {
      if i <= |es| {
        assert Run(first, es[..i]).stage == Run(first, es[..k + 1]).stage;
      }
    }
  }

  lemma UnderWayFirst(first: World, es: seq<Event>, e: Event)
    requires ReadsPage(Run(first, es), e)
    ensures UnderWay(first, es + [e], |es|)
  {
    hide Run, ReadsPage;
    var all := es + [e];
    assert all[..|es|] == es && all[..|es| + 1] == all;
  }

  lemma RunAdds(w: World, es: seq<Event>, e: Event)
    ensures Run(w, es + [e]) == Step(Run(w, es), e)
  {
    hide Step;
    assert (es + [e])[..|es|] == es;
  }

  lemma {:induction false} RepliesTraced(first: World, es: seq<Event>)
    requires !first.stage.Answered?
    ensures Traced(first, es)
  {
    hide Step, UnderWay, ReadsPage;
    if es != [] {
      var front, last := es[..|es| - 1], es[|es| - 1];
      assert es == front + [last];
      RepliesTraced(first, front);
      RunAdds(first, front, last);
      var w := Run(first, front);
      hide Run;
      if Run(first, es).stage.Answered? && Run(first, es).stage.reply.Events? && Run(first, es).stage.reply.skipped != {} {
        StepTraces(w, last);
        if ReadsPage(w, last) {
          UnderWayFirst(first, front, last);
        } else {
          var k: nat :| UnderWay(first, front, k);
          UnderWayLonger(first, front, last, k);
        }
      }
    }
  }

  /** The record of skipped numbers, told by the run alone. */
  ghost predicate Explained(first: World, es: seq<Event>, x: int) {
    exists k: nat, j: nat :: Overtaken(first, es, k, j, x)
  }

  lemma OvertakenEarlier(first: World, es: seq<Event>, e: Event, k: nat, j: nat, x: int)
    requires j < |es|
    ensures Overtaken(first, es + [e], k, j, x) <==> Overtaken(first, es, k, j, x)
  {
    hide Run, ReadsPage, UnderWay;
    if k < j {
      assert (es + [e])[..k] == es[..k] && (es + [e])[..j] == es[..j];
    }
  }

  /** What is under way at the end is what the read found. */
  lemma UnderWaySkips(first: World, es: seq<Event>, k: nat)
    requires UnderWay(first, es, k)
    ensures Run(first, es).stage.Answered? && Run(first, es).stage.reply.Events?
    ensures forall x :: Misses(Run(first, es[..k]), es[k], x) <==> x in Run(first, es).stage.reply.skipped
  {
    hide Step, ReadsPage;
    RunStep(first, es, k);
    hide Run;
    MissesAreSkipped(Run(first, es[..k]), es[k]);
    assert es[..|es|] == es;
  }

  lemma LastOvertaken(first: World, es: seq<Event>, e: Event, k: nat, x: int)
    ensures Overtaken(first, es + [e], k, |es|, x)
       <==> && e == ReplyArrives(true) && UnderWay(first, es, k)
            && Run(first, es).stage.Answered? && Run(first, es).stage.reply.Events? && x in Run(first, es).stage.reply.skipped
  {
    hide Run, ReadsPage;
    var all := es + [e];
    assert all[..|es|] == es;
    if k < |es| {
      assert all[..k] == es[..k];
    }
    if UnderWay(first, es, k) {
      UnderWaySkips(first, es, k);
    }
  }

  lemma StepSkips(w: World, e: Event)
    ensures Step(w, e).skipped == w.skipped +
              if e == ReplyArrives(true) && w.stage.Answered? && w.stage.reply.Events? then w.stage.reply.skipped else {}
  {
    hide Serve, Append, DeleteBefore, MaxBefore, MaxPresent;
  }

  lemma {:induction false} SkippedExplained(first: World, es: seq<Event>, x: int)
    requires !first.stage.Answered? && first.skipped == {}
    ensures x in Run(first, es).skipped <==> Explained(first, es, x)
  {
    hide Step, Overtaken, UnderWay;
    if es == [] {
      NothingOvertaken(first, x);
    } else {
      var front, last := es[..|es| - 1], es[|es| - 1];
      assert es == front + [last];
      SkippedExplained(first, front, x);
      RunAdds(first, front, last);
      hide Run;
      var w := Run(first, front);
      StepSkips(w, last);
      RepliesTraced(first, front);
      forall k: nat, j: nat | Overtaken(first, es, k, j, x)
        ensures x in Run(first, es).skipped
      {
        OvertakenInside(first, es, k, j, x);
        if j < |front| {
          OvertakenEarlier(first, front, last, k, j, x);
          assert Explained(first, front, x);
        } else {
          LastOvertaken(first, front, last, k, x);
          UnderWaySkips(first, front, k);
        }
      }
      if x in w.skipped {
        var k: nat, j: nat :| Overtaken(first, front, k, j, x);
        OvertakenInside(first, front, k, j, x);
        OvertakenEarlier(first, front, last, k, j, x);
      } else if x in Run(first, es).skipped {
        var k: nat :| UnderWay(first, front, k);
        LastOvertaken(first, front, last, k, x);
      }
    }
  }

  lemma NothingOvertaken(first: World, x: int)
    ensures !Explained(first, [], x) && Run(first, []) == first
  {
  }

  lemma OvertakenInside(first: World, es: seq<Event>, k: nat, j: nat, x: int)
    requires Overtaken(first, es, k, j, x)
    ensures k < j < |es|
  {
    hide Run;
  }

  /**
   Any interleaving of appends, prunes and paged requests: as long as no full synchronisation was
   called for, the client has applied, in order and once each, exactly the user's events up to its
   cursor but those a page it took passed over, and these were already deleted when that page was read.
   */
  lemma AppliedExceptDeleted(user: int, start: int, log: Log, es: seq<Event>)
    requires Ordered(log) && start <= log.lastSeq
    ensures var w := Run(Initial(user, start, log), es);
            && start <= w.cursor
            && (!w.flagged ==> w.skipped <= w.log.deleted
                               && w.applied == Between(w.log.history, w.skipped, user, start, w.cursor))
            && (forall x :: x in w.skipped <==> Explained(Initial(user, start, log), es, x))
  {
    InitiallySound(user, start, log);
    RunKeepsSound(Initial(user, start, log), es);
    forall x
      ensures x in Run(Initial(user, start, log), es).skipped <==> Explained(Initial(user, start, log), es, x)
    {
      SkippedExplained(Initial(user, start, log), es, x);
    }
  }

  /** What is skipped, or will be when the reply arrives, are events of the user. */
  predicate OwnNumbers(w: World) {
    && (forall x <- w.skipped :: exists e <- w.log.history :: e.seqNo == x && e.user == w.user)
    && (w.stage.Answered? && w.stage.reply.Events? ==>
          forall x <- w.stage.reply.skipped :: exists e <- w.log.history :: e.seqNo == x && e.user == w.user)
  }

  lemma StepKeepsOwnNumbers(w: World, e: Event)
    requires OwnNumbers(w)
    ensures OwnNumbers(Step(w, e))
  {
    hide Page, MaxBefore, MaxPresent;
  }

  lemma {:induction false} RunKeepsOwnNumbers(w: World, es: seq<Event>)
    requires OwnNumbers(w)
    ensures OwnNumbers(Run(w, es))
  {
    if es != [] {
      RunKeepsOwnNumbers(w, es[..|es| - 1]);
      StepKeepsOwnNumbers(Run(w, es[..|es| - 1]), es[|es| - 1]);
      hide OwnNumbers, Step;
    }
  }

  /**
   The client has everything up to its cursor exactly when no page it took was read after one of the
   user's events between its cursor and the page's last number had been deleted.
   */
  lemma GapFreeExactlyWhen(user: int, start: int, log: Log, es: seq<Event>)
    requires Ordered(log) && start <= log.lastSeq
    requires !Run(Initial(user, start, log), es).flagged
    ensures var w := Run(Initial(user, start, log), es);
            w.applied == Between(w.log.history, {}, user, start, w.cursor)
            <==> forall x :: !Explained(Initial(user, start, log), es, x)
  {
    hide Run, Explained, Between, Sound, OwnNumbers, Ordered;
    var first := Initial(user, start, log);
    InitiallySound(user, start, log);
    InitiallyOwn(user, start, log);
    RunKeepsSound(first, es);
    RunKeepsOwnNumbers(first, es);
    AppliedExceptDeleted(user, start, log, es);
    SkippingLeavesGap(Run(first, es));
    if Run(first, es).skipped != {} {
      var x := Member(Run(first, es).skipped);
      assert Explained(first, es, x);
    } else {
      forall x
        ensures !Explained(first, es, x)
      {
        assert x !in Run(first, es).skipped;
      }
    }
  }

  lemma InitiallyOwn(user: int, start: int, log: Log)
    ensures OwnNumbers(Initial(user, start, log))
    ensures Initial(user, start, log).user == user && Initial(user, start, log).start == start
  {
  }

  lemma SkippingLeavesGap(w: World)
    requires Sound(w) && !w.flagged && OwnNumbers(w)
    ensures w.applied == Between(w.log.history, {}, w.user, w.start, w.cursor) <==> w.skipped == {}
  {
    hide Between;
    BetweenMembers(w.log.history, {}, w.user, w.start, w.cursor);
    BetweenMembers(w.log.history, w.skipped, w.user, w.start, w.cursor);
    if w.skipped != {} {
      var x := Member(w.skipped);
      var e :| e in w.log.history && e.seqNo == x && e.user == w.user;
      assert e in Between(w.log.history, {}, w.user, w.start, w.cursor);
      assert e !in w.applied;
    }
  }

  /**
   One reply: its watermark check saw the log `checked`, its page was read from `read`. It misses an
   event of the user up to its last number exactly when one had been deleted above the watermark the
   check saw (anywhere, for a watermark that could not be read and for a cursor of 0, which is not
   checked), or was deleted between the check and the read.
   */
  lemma ReplyMissesExactlyWhen(checked: Log, readable: bool, read: Log, user: int, after: int, limit: int)
    requires Ordered(read) && checked.deleted <= read.deleted
    requires !readable || after <= 0 || checked.watermark <= after
    ensures var r := Serve(read, user, after, limit);
            r.page != Between(read.history, {}, user, after, r.end)
            <==> exists e <- read.history ::
                   && e.user == user && after < e.seqNo <= r.end
                   && ((e.seqNo in checked.deleted && (!readable || after <= 0 || e.seqNo > checked.watermark))
                       || e.seqNo in read.deleted - checked.deleted)
  {
    var r := Serve(read, user, after, limit);
    PageIsBetween(read, user, after, EffectiveLimit(limit));
    hide Between, Page;
    BetweenMembers(read.history, {}, user, after, r.end);
    BetweenMembers(read.history, r.skipped, user, after, r.end);
    if e :| e in read.history && e.user == user && after < e.seqNo <= r.end && e.seqNo in read.deleted {
      assert e in Between(read.history, {}, user, after, r.end) && e !in r.page;
    } else {
      assert r.skipped == {};
    }
  }

  lemma {:induction false} CursorNeverDecreases(user: int, start: int, log: Log, es: seq<Event>, e: Event)
    requires Ordered(log) && start <= log.lastSeq
    ensures Run(Initial(user, start, log), es).cursor <= Run(Initial(user, start, log), es + [e]).cursor
  {
    InitiallySound(user, start, log);
    RunKeepsSound(Initial(user, start, log), es);
    assert (es + [e])[..|es + [e]| - 1] == es;
    StepKeepsSound(Run(Initial(user, start, log), es), e);
  }

  // ---- Atomic prunes and requests leave no gap ----

  /** Deletions never reach beyond the watermark. */
  predicate Covered(log: Log) {
    forall x <- log.deleted :: x <= log.watermark
  }

  datatype Action =
    | PruneAll(t: int)       // the three statements in one go, with one reading of the clock
    | ServeAll(limit: int, works: bool) // the request's reads in one go; with the watermark read, the others may fail
    | Other(e: Event)

  function Expand(a: Action): seq<Event> {
    match a
    case PruneAll(t) => [PruneMeasures(t), PruneDeletes(t), PruneMarks]
    case ServeAll(limit, works) => [ServerChecks(true), if works then ServerReads(limit) else ServerReadFails, ServerReadsMaximum(works)]
    case Other(e) => [e]
  }

  predicate Indivisible(a: Action) {
    a.Other? ==> a.e.Appended? || a.e.ClientAsks? || a.e.ReplyArrives? || a.e.ReplyLost?
  }

  function ExpandAll(actions: seq<Action>): seq<Event> {
    if actions == [] then [] else ExpandAll(actions[..|actions| - 1]) + Expand(actions[|actions| - 1])
  }

  lemma {:induction false} RunSplits(w: World, es: seq<Event>, more: seq<Event>)
    ensures Run(w, es + more) == Run(Run(w, es), more)
  {
    if more == [] {
      assert es + more == es;
    } else {
      assert (es + more)[..|es + more| - 1] == es + more[..|more| - 1];
      RunSplits(w, es, more[..|more| - 1]);
    }
  }

  /**
   A prune whose two readings of the clock differ keeps deletions within the watermark exactly
   when no event that became old between them has a number beyond the watermark it will set.
   */
  lemma PruneCoversExactlyWhen(log: Log, t1: int, t2: int)
    requires Covered(log) && t1 <= t2
    requires MaxBefore(log.history, log.deleted, t1) > 0
    ensures var cutoff := MaxBefore(log.history, log.deleted, t1);
            Covered(Mark(DeleteBefore(log, t2), cutoff))
            <==> forall e <- log.history :: Present(log, e) && t1 <= e.created < t2 ==> e.seqNo <= cutoff || e.seqNo <= log.watermark
  {
    var cutoff := MaxBefore(log.history, log.deleted, t1);
    MaxBeforeBounds(log.history, log.deleted, t1);
    var after := Mark(DeleteBefore(log, t2), cutoff);
    if Covered(after) {
      forall e | e in log.history && Present(log, e) && t1 <= e.created < t2
        ensures e.seqNo <= after.watermark
      {
        assert e.seqNo in after.deleted;
      }
    }
  }

  /** Between indivisible actions nothing has been missed, and nothing can be. */
  predicate Seamless(w: World) {
    && Covered(w.log) && w.prune.NoPrune? && !w.stage.Passed? && !w.stage.Behind? && w.start > 0
    && (w.flagged || (w.skipped == {} && (w.stage.Answered? && w.stage.reply.Events? ==> w.stage.reply.skipped == {})))
  }

  lemma ServeAllKeepsSeamless(w: World, limit: int, works: bool)
    requires Sound(w) && Seamless(w)
    ensures Seamless(Step(Step(Step(w, ServerChecks(true)), if works then ServerReads(limit) else ServerReadFails), ServerReadsMaximum(works)))
  {
    hide Page, MaxPresent;
    if w.stage.Asked? && !w.flagged && w.stage.after >= w.log.watermark {
      var reply := Serve(w.log, w.user, w.stage.after, limit);
      assert reply.skipped == {};
    }
  }

  lemma PruneAllKeepsSeamless(w: World, t: int)
    requires Sound(w) && Seamless(w)
    ensures Seamless(Step(Step(Step(w, PruneMeasures(t)), PruneDeletes(t)), PruneMarks))
  {
    MaxBeforeBounds(w.log.history, w.log.deleted, t);
    hide MaxBefore, Sound;
  }

  lemma ActionKeepsSeamless(w: World, a: Action)
    requires Sound(w) && Seamless(w) && Indivisible(a)
    ensures Seamless(Run(w, Expand(a)))
  {
    match a {
      case PruneAll(t) =>
        var es := [PruneMeasures(t), PruneDeletes(t), PruneMarks];
        RunThree(w, es);
        PruneAllKeepsSeamless(w, t);
      case ServeAll(limit, works) =>
        RunThree(w, [ServerChecks(true), if works then ServerReads(limit) else ServerReadFails, ServerReadsMaximum(works)]);
        ServeAllKeepsSeamless(w, limit, works);
      case Other(e) =>
        assert [e][..0] == [];
        assert Run(w, [e]) == Step(w, e);
        hide Run;
    }
  }

  lemma RunThree(w: World, es: seq<Event>)
    requires |es| == 3
    ensures Run(w, es) == Step(Step(Step(w, es[0]), es[1]), es[2])
  {
    hide Step;
    assert es[..0] == [] && es[..3] == es;
    forall k: nat | k < 3 {
      RunStep(w, es, k);
    }
  }

  lemma {:induction false} ActionsKeepSeamless(w: World, actions: seq<Action>)
    requires Sound(w) && Seamless(w) && forall a <- actions :: Indivisible(a)
    ensures Seamless(Run(w, ExpandAll(actions)))
  {
    if actions != [] {
      var front, last := actions[..|actions| - 1], actions[|actions| - 1];
      assert last in actions && forall a <- front :: a in actions;
      ActionsKeepSeamless(w, front);
      RunKeepsSound(w, ExpandAll(front));
      RunSplits(w, ExpandAll(front), Expand(last));
      hide Seamless, Sound, Run, Expand;
      ActionKeepsSeamless(Run(w, ExpandAll(front)), last);
    }
  }

  /**
   With prunes and requests indivisible, a client with a cursor above zero misses nothing: unless
   told to synchronise in full, it has applied exactly the user's events since its start, in
   order and once each, however much of the log is pruned meanwhile.
   */
  lemma ReplayWithoutGaps(user: int, start: int, log: Log, actions: seq<Action>)
    requires Ordered(log) && Covered(log) && 0 < start <= log.lastSeq
    requires forall a <- actions :: Indivisible(a)
    ensures var w := Run(Initial(user, start, log), ExpandAll(actions));
            !w.flagged ==> w.applied == Between(w.log.history, {}, user, start, w.cursor)
  {
    InitiallySound(user, start, log);
    ActionsKeepSeamless(Initial(user, start, log), actions);
    AppliedExceptDeleted(user, start, log, ExpandAll(actions));
  }

  // ---- Four ways to a gap ----

  lemma RunStep(w: World, es: seq<Event>, k: nat)
    requires k < |es|
    ensures Run(w, es[..k + 1]) == Step(Run(w, es[..k]), es[k])
  {
    assert es[..k + 1][..k] == es[..k];
  }

  const FIRST := LogEvent(1, 1, 0)
  const SECOND := LogEvent(2, 1, 10)
  const THIRD := LogEvent(3, 1, 20)

  function SmallLog(deleted: set<int>, watermark: int): Log {
    Log([FIRST, SECOND, THIRD], deleted, watermark, 3)
  }

  lemma SmallPrune()
    ensures DeleteBefore(SmallLog({}, 0), 11) == SmallLog({1, 2}, 0)
    ensures MaxBefore([FIRST, SECOND, THIRD], {}, 5) == 1
    ensures MaxBefore([FIRST, SECOND, THIRD], {}, 11) == 2
  {
    var h := [FIRST, SECOND, THIRD];
    assert h[..2] == [FIRST, SECOND] && [FIRST, SECOND][..1] == [FIRST] && [FIRST][..0] == [];
    assert MaxBefore([FIRST], {}, 5) == 1 && MaxBefore([FIRST], {}, 11) == 1;
    assert MaxBefore([FIRST, SECOND], {}, 5) == 1 && MaxBefore([FIRST, SECOND], {}, 11) == 2;
    assert FIRST in h && SECOND in h && THIRD in h;
    assert DeleteBefore(SmallLog({}, 0), 11).deleted == {1, 2};
  }

  /** Reading after 1 with events 1 and 2 deleted gives event 3 only. */
  lemma SmallPage(watermark: int)
    ensures Serve(SmallLog({1, 2}, watermark), 1, 1, 0) == Events([THIRD], 3, false, {2})
  {
    var h := [FIRST, SECOND, THIRD];
    assert h[..2] == [FIRST, SECOND] && [FIRST, SECOND][..1] == [FIRST] && [FIRST][..0] == [];
    assert Between([FIRST], {1, 2}, 1, 1, 3) == [];
    assert Between([FIRST, SECOND], {1, 2}, 1, 1, 3) == [];
    assert Between(h, {1, 2}, 1, 1, 3) == [THIRD];
    assert SECOND in h;
    assert SkippedBy(SmallLog({1, 2}, watermark), 1, 1, 3) == {2};
  }

  predicate MissedSecond(w: World) {
    !w.flagged && w.cursor == 3 && w.applied == [THIRD] && w.skipped == {2}
  }

  /** The state of a run on the small log before the reply arrives. */
  function Small(log: Log, prune: Prune, stage: Stage): World {
    World(log, prune, stage, 1, 1, 1, [], {}, false)
  }

  lemma MissedArrives(log: Log, prune: Prune)
    ensures MissedSecond(Step(Small(log, prune, Answered(Events([THIRD], 3, false, {2}))), ReplyArrives(true)))
  {
  }

  lemma SmallPruneSteps(cutoff: int, stage: Stage)
    requires cutoff in {1, 2}
    ensures var t := if cutoff == 1 then 5 else 11;
            Step(Small(SmallLog({}, 0), NoPrune, stage), PruneMeasures(t)) == Small(SmallLog({}, 0), Measured(cutoff), stage)
    ensures Step(Small(SmallLog({}, 0), Measured(cutoff), stage), PruneDeletes(11)) == Small(SmallLog({1, 2}, 0), Deleted(cutoff), stage)
    ensures Step(Small(SmallLog({1, 2}, 0), Deleted(cutoff), stage), PruneMarks) == Small(SmallLog({1, 2}, cutoff), NoPrune, stage)
  {
    SmallPrune();
    hide DeleteBefore, MaxBefore;
  }

  lemma SmallServeSteps(log: Log, watermark: int, prune: Prune)
    requires log.watermark <= 1
    ensures Step(Small(log, prune, Idle), ClientAsks) == Small(log, prune, Asked(1))
    ensures Step(Small(log, prune, Asked(1)), ServerChecks(true)) == Small(log, prune, Passed(1))
    ensures Step(Small(SmallLog({1, 2}, watermark), prune, Passed(1)), ServerReads(0))
         == Small(SmallLog({1, 2}, watermark), prune, Answered(Events([THIRD], 3, false, {2})))
  {
    SmallPage(watermark);
    hide Serve;
  }

  /** The clock moves on between a prune's two reads of it: event 2 is deleted above the watermark 1. */
  lemma GapWithTwoClocks()
    ensures MissedSecond(Run(Initial(1, 1, SmallLog({}, 0)),
              [PruneMeasures(5), PruneDeletes(11), PruneMarks, ClientAsks, ServerChecks(true), ServerReads(0), ReplyArrives(true)]))
  {
    hide Run, Step, MissedSecond;
    SevenSteps(PruneMeasures(5), PruneDeletes(11), PruneMarks, ClientAsks, ServerChecks(true), ServerReads(0), ReplyArrives(true));
    SmallPruneSteps(1, Idle);
    SmallServeSteps(SmallLog({1, 2}, 1), 1, NoPrune);
    MissedArrives(SmallLog({1, 2}, 1), NoPrune);
  }

  /** A request is served between a prune's DELETE and its UPDATE of the watermark. */
  lemma GapBeforeMark()
    ensures MissedSecond(Run(Initial(1, 1, SmallLog({}, 0)),
              [PruneMeasures(11), PruneDeletes(11), ClientAsks, ServerChecks(true), ServerReads(0), PruneMarks, ReplyArrives(true)]))
  {
    hide Run, Step, MissedSecond;
    SevenSteps(PruneMeasures(11), PruneDeletes(11), ClientAsks, ServerChecks(true), ServerReads(0), PruneMarks, ReplyArrives(true));
    SmallPruneSteps(2, Idle);
    SmallServeSteps(SmallLog({1, 2}, 0), 0, Deleted(2));
    SmallPruneSteps(2, Answered(Events([THIRD], 3, false, {2})));
    MissedArrives(SmallLog({1, 2}, 2), NoPrune);
  }

  /** A whole prune falls between a request's check of the watermark and its read of the events. */
  lemma GapBetweenReads()
    ensures MissedSecond(Run(Initial(1, 1, SmallLog({}, 0)),
              [ClientAsks, ServerChecks(true), PruneMeasures(11), PruneDeletes(11), PruneMarks, ServerReads(0), ReplyArrives(true)]))
  {
    hide Run, Step, MissedSecond;
    SevenSteps(ClientAsks, ServerChecks(true), PruneMeasures(11), PruneDeletes(11), PruneMarks, ServerReads(0), ReplyArrives(true));
    SmallServeSteps(SmallLog({}, 0), 2, NoPrune);
    SmallPruneSteps(2, Passed(1));
    MissedArrives(SmallLog({1, 2}, 2), NoPrune);
  }

  /** A prune is complete, but a later request cannot read the watermark it set. */
  lemma GapUnreadableMark()
    ensures MissedSecond(Run(Initial(1, 1, SmallLog({}, 0)),
              [PruneMeasures(11), PruneDeletes(11), PruneMarks, ClientAsks, ServerChecks(false), ServerReads(0), ReplyArrives(true)]))
  {
    hide Run, Step, MissedSecond;
    SevenSteps(PruneMeasures(11), PruneDeletes(11), PruneMarks, ClientAsks, ServerChecks(false), ServerReads(0), ReplyArrives(true));
    SmallPruneSteps(2, Idle);
    UncheckedSteps();
    MissedArrives(SmallLog({1, 2}, 2), NoPrune);
  }

  lemma UncheckedSteps()
    ensures var log := SmallLog({1, 2}, 2);
            && Step(Small(log, NoPrune, Idle), ClientAsks) == Small(log, NoPrune, Asked(1))
            && Step(Small(log, NoPrune, Asked(1)), ServerChecks(false)) == Small(log, NoPrune, Passed(1))
            && Step(Small(log, NoPrune, Passed(1)), ServerReads(0)) == Small(log, NoPrune, Answered(Events([THIRD], 3, false, {2})))
  {
    SmallPage(2);
    hide Serve;
  }

  lemma SevenSteps(a: Event, b: Event, c: Event, d: Event, e: Event, f: Event, g: Event)
    ensures Run(Initial(1, 1, SmallLog({}, 0)), [a, b, c, d, e, f, g])
         == Step(Step(Step(Step(Step(Step(Step(Small(SmallLog({}, 0), NoPrune, Idle), a), b), c), d), e), f), g)
  {
    hide Step;
    var w := Initial(1, 1, SmallLog({}, 0));
    RunSplits(w, [a], [b, c, d, e, f, g]);
    assert [a] + [b, c, d, e, f, g] == [a, b, c, d, e, f, g];
    RunThree(Run(w, [a]), [b, c, d]);
    RunSplits(Run(w, [a]), [b, c, d], [e, f, g]);
    assert [b, c, d] + [e, f, g] == [b, c, d, e, f, g];
    RunThree(Run(Run(w, [a]), [b, c, d]), [e, f, g]);
    assert [a][..0] == [];
  }

  // ---- Paging ----

  /** The client's paging over a log at rest: it ends, with everything present applied. */
  method CatchUp(log: Log, user: int, from: int, limit: int) returns (applied: seq<LogEvent>, cursor: int)
    requires Ordered(log) && from <= log.lastSeq
    ensures applied == Between(log.history, log.deleted, user, from, log.lastSeq)
    ensures from <= cursor <= log.lastSeq
  {
    applied, cursor := [], from;
    var hasMore := true;
    EmptyRange(log.history, log.deleted, user, from);
    while hasMore
      invariant from <= cursor <= log.lastSeq
      invariant applied == Between(log.history, log.deleted, user, from, cursor)
      invariant !hasMore ==> Between(log.history, log.deleted, user, cursor, log.lastSeq) == []
      decreases hasMore, log.lastSeq - cursor
    {
      ghost var before := cursor;
      var reply := Serve(log, user, cursor, limit);
      NextPage(log, user, from, cursor, EffectiveLimit(limit));
      applied := applied + reply.page;
      if reply.end > cursor {
        cursor := reply.end;
      }
      hasMore := reply.hasMore;
    }
    BetweenJoins(log.history, log.deleted, log.deleted, user, from, cursor, log.lastSeq);
    assert log.deleted + log.deleted == log.deleted;
  }

  lemma NextPage(log: Log, user: int, from: int, after: int, limit: int)
    requires Ordered(log) && from <= after <= log.lastSeq && limit > 0
    ensures var page := Page(log, user, after, limit);
            var end := PageEnd(page, after);
            && after <= end <= log.lastSeq
            && Between(log.history, log.deleted, user, from, after) + page
            == Between(log.history, log.deleted, user, from, end)
            && (page != [] ==> end > after)
            && (|page| < limit ==> Between(log.history, log.deleted, user, end, log.lastSeq) == [])
  {
    var all := Between(log.history, log.deleted, user, after, log.lastSeq);
    var page := Page(log, user, after, limit);
    var end := PageEnd(page, after);
    BetweenMembers(log.history, log.deleted, user, after, log.lastSeq);
    if page != [] {
      assert page[|page| - 1] in all;
    }
    PageIsBetween(log, user, after, limit);
    assert log.deleted + log.deleted == log.deleted;
    SameDeleted(log.history, log.deleted, SkippedBy(log, user, after, end), user, after, end);
    BetweenJoins(log.history, log.deleted, log.deleted, user, from, after, end);
    BetweenJoins(log.history, log.deleted, log.deleted, user, after, end, log.lastSeq);
    if |page| < limit {
      assert page == all;
      assert |all| == |page| + |Between(log.history, log.deleted, user, end, log.lastSeq)|;
    }
  }

  // ---- The server's table in place ----

  /** The rows that have not been deleted. */
  function Remaining(h: seq<LogEvent>, gone: set<int>): seq<LogEvent> {
    if h == [] then []
    else Remaining(h[..|h| - 1], gone) + if h[|h| - 1].seqNo in gone then [] else [h[|h| - 1]]
  }

  lemma {:induction false} RemainingBetween(h: seq<LogEvent>, gone: set<int>, user: int, lo: int, hi: int)
    ensures Between(Remaining(h, gone), {}, user, lo, hi) == Between(h, gone, user, lo, hi)
  {
    if h != [] {
      RemainingBetween(h[..|h| - 1], gone, user, lo, hi);
      var rest, last := Remaining(h[..|h| - 1], gone), h[|h| - 1];
      if last.seqNo in gone {
        assert rest + [] == rest;
      } else {
        assert (rest + [last])[..|rest|] == rest;
      }
    }
  }

  lemma {:induction false} RemainingMaxBefore(h: seq<LogEvent>, gone: set<int>, t: int)
    ensures MaxBefore(Remaining(h, gone), {}, t) == MaxBefore(h, gone, t)
  {
    if h != [] {
      var rest, last := Remaining(h[..|h| - 1], gone), h[|h| - 1];
      RemainingMaxBefore(h[..|h| - 1], gone, t);
      if last.seqNo in gone {
        assert Remaining(h, gone) == rest;
      } else {
        assert Remaining(h, gone) == rest + [last] && (rest + [last])[..|rest|] == rest;
      }
    }
  }

  lemma {:induction false} RemainingMaxPresent(h: seq<LogEvent>, gone: set<int>)
    ensures MaxPresent(Remaining(h, gone), {}) == MaxPresent(h, gone)
  {
    if h != [] {
      var rest, last := Remaining(h[..|h| - 1], gone), h[|h| - 1];
      RemainingMaxPresent(h[..|h| - 1], gone);
      if last.seqNo in gone {
        assert Remaining(h, gone) == rest;
      } else {
        assert Remaining(h, gone) == rest + [last] && (rest + [last])[..|rest|] == rest;
      }
    }
  }

  lemma {:induction false} RemainingMembers(h: seq<LogEvent>, gone: set<int>)
    ensures forall e :: e in Remaining(h, gone) <==> e in h && e.seqNo !in gone
  {
    if h != [] {
      RemainingMembers(h[..|h| - 1], gone);
      assert h == h[..|h| - 1] + [h[|h| - 1]];
    }
  }

  lemma RemainingGrows(h: seq<LogEvent>, gone: set<int>, e: LogEvent)
    ensures Remaining(h + [e], gone) == Remaining(h, gone) + if e.seqNo in gone then [] else [e]
  {
    assert (h + [e])[..|h|] == h;
  }

  /** Deleting from what remains is what remains after deleting from all. */
  lemma {:induction false} RemainingTwice(h: seq<LogEvent>, g1: set<int>, g2: set<int>)
    ensures Remaining(Remaining(h, g1), g2) == Remaining(h, g1 + g2)
  {
    if h != [] {
      RemainingTwice(h[..|h| - 1], g1, g2);
      var rest, last := Remaining(h[..|h| - 1], g1), h[|h| - 1];
      if last.seqNo in g1 {
        assert rest + [] == rest;
      } else {
        assert (rest + [last])[..|rest|] == rest;
      }
    }
  }

  lemma {:induction false} RemainingSame(h: seq<LogEvent>, g1: set<int>, g2: set<int>)
    requires forall e <- h :: e.seqNo in g1 <==> e.seqNo in g2
    ensures Remaining(h, g1) == Remaining(h, g2)
  {
    if h != [] {
      assert h[|h| - 1] in h;
      RemainingSame(h[..|h| - 1], g1, g2);
    }
  }

  lemma {:induction false} BetweenPrefix(h: seq<LogEvent>, gone: set<int>, user: int, lo: int, hi: int, k: nat)
    requires k <= |h|
    ensures Between(h[..k], gone, user, lo, hi) <= Between(h, gone, user, lo, hi)
  {
    if k == |h| {
      assert h[..k] == h;
    } else {
      BetweenPrefix(h[..|h| - 1], gone, user, lo, hi, k);
      assert h[..|h| - 1][..k] == h[..k];
    }
  }

  datatype SyncReply = InvalidCursor | NeedsFullSync(upTo: int) | Batch(page: seq<LogEvent>, end: int, hasMore: bool)

  class EventTable {
    var rows: seq<LogEvent>
    var watermark: int
    var lastSeq: int
    ghost var history: seq<LogEvent>
    ghost var deleted: set<int>

    constructor ()
      ensures Valid() && View() == Log([], {}, 0, 0)
    {
      rows, watermark, lastSeq := [], 0, 0;
      history, deleted := [], {};
    }

    ghost function View(): Log
      reads this
    {
      Log(history, deleted, watermark, lastSeq)
    }

    ghost predicate Valid()
      reads this
    {
      && rows == Remaining(history, deleted) && Ordered(View())
      && (forall x <- deleted :: x <= lastSeq) && 0 <= watermark <= lastSeq
    }

    method AppendEvent(user: int, created: int) returns (number: int)
      requires Valid()
      modifies this
      ensures Valid() && View() == Append(old(View()), user, created) && number == lastSeq
    {
      RemainingMembers(history, deleted);
      ghost var h, gone := history, deleted;
      RemainingGrows(h, gone, LogEvent(lastSeq + 1, user, created));
      hide Remaining;
      lastSeq := lastSeq + 1;
      number := lastSeq;
      var e := LogEvent(number, user, created);
      rows := rows + [e];
      history := history + [e];
    }

    /** SELECT ... WHERE user AND seq > after ORDER BY seq LIMIT limit */
    method GetEvents(user: int, after: int, limit: int) returns (page: seq<LogEvent>)
      requires Valid() && limit > 0
      ensures page == Page(View(), user, after, limit)
    {
      RemainingBetween(history, deleted, user, after, lastSeq);
      RemainingMembers(history, deleted);
      page := FirstRows(rows, user, after, lastSeq, limit);
    }

    /** Walks the rows in order until the limit is reached. */
    static method FirstRows(table: seq<LogEvent>, user: int, after: int, last: int, limit: int) returns (page: seq<LogEvent>)
      requires limit > 0 && forall e <- table :: e.seqNo <= last
      ensures var all := Between(table, {}, user, after, last);
              page == if |all| <= limit then all else all[..limit]
    {
      page := [];
      var i := 0;
      while i < |table| && |page| < limit
        invariant 0 <= i <= |table| && |page| <= limit
        invariant page == Between(table[..i], {}, user, after, last)
      {
        assert table[..i + 1][..i] == table[..i] && table[i] in table;
        var e := table[i];
        if e.user == user && e.seqNo > after {
          page := page + [e];
        }
        i := i + 1;
      }
      BetweenPrefix(table, {}, user, after, last, i);
      assert table[..|table|] == table;
    }

    /** SELECT MAX(seq) ... WHERE created_at < t */
    method MeasureCutoff(t: int) returns (cutoff: int)
      requires Valid()
      ensures cutoff == MaxBefore(history, deleted, t) && 0 <= cutoff <= lastSeq
    {
      RemainingMaxBefore(history, deleted, t);
      MaxBeforeBounds(history, deleted, t);
      cutoff := 0;
      for i := 0 to |rows|
        invariant cutoff == MaxBefore(rows[..i], {}, t)
      {
        assert rows[..i + 1][..i] == rows[..i];
        if rows[i].created < t && rows[i].seqNo > cutoff {
          cutoff := rows[i].seqNo;
        }
      }
      assert rows[..|rows|] == rows;
    }

    /** DELETE ... WHERE created_at < t */
    method DeleteOld(t: int) returns (removed: nat)
      requires Valid()
      modifies this`rows, this`deleted
      ensures Valid() && View() == DeleteBefore(old(View()), t)
      ensures removed == |old(rows)| - |rows|
    {
      ghost var gone := set e <- history | e.created < t :: e.seqNo;
      WhatRemains(t);
      var kept := RowsSince(rows, t, set e <- rows | e.created < t :: e.seqNo);
      removed := |rows| - |kept|;
      rows := kept;
      deleted := deleted + gone;
    }

    lemma WhatRemains(t: int)
      requires Valid()
      ensures var present := set e <- rows | e.created < t :: e.seqNo;
              && (forall e <- rows :: e.seqNo in present <==> e.created < t)
              && Remaining(rows, present) == Remaining(history, DeleteBefore(View(), t).deleted)
              && forall x <- DeleteBefore(View(), t).deleted :: x <= lastSeq
    {
      RemainingMembers(history, deleted);
      var gone := set e <- history | e.created < t :: e.seqNo;
      var present := set e <- rows | e.created < t :: e.seqNo;
      forall e | e in history
        ensures e.seqNo in gone <==> e.created < t
        ensures e in rows ==> (e.seqNo in present <==> e.created < t)
        ensures e.seqNo in deleted + present <==> e.seqNo in deleted + gone
      {
        SameNumber(e, t);
      }
      RemainingTwice(history, deleted, present);
      RemainingSame(history, deleted + present, deleted + gone);
    }

    static method RowsSince(table: seq<LogEvent>, t: int, ghost before: set<int>) returns (kept: seq<LogEvent>)
      requires forall e <- table :: e.seqNo in before <==> e.created < t
      ensures kept == Remaining(table, before) && |kept| <= |table|
    {
      kept := [];
      for i := 0 to |table|
        invariant kept == Remaining(table[..i], before) && |kept| <= i
      {
        assert table[..i + 1][..i] == table[..i] && table[i] in table;
        if table[i].created >= t {
          kept := kept + [table[i]];
        }
      }
      assert table[..|table|] == table;
    }

    /** The three statements of a prune, with the clock read as t1 by the first and t2 by the second. */
    method PruneEvents(t1: int, t2: int) returns (removed: nat)
      requires Valid()
      modifies this
      ensures Valid()
      ensures var cutoff := MaxBefore(old(history), old(deleted), t1);
              View() == if cutoff <= 0 then old(View()) else Mark(DeleteBefore(old(View()), t2), cutoff)
      ensures removed == |old(rows)| - |rows|
    {
      hide MaxBefore, Remaining;
      var cutoff := MeasureCutoff(t1);
      if cutoff <= 0 {
        return 0;
      }
      removed := DeleteOld(t2);
      if watermark < cutoff {
        watermark := cutoff;
      }
    }

    /** Numbers identify events. */
    lemma SameNumber(e: LogEvent, t: int)
      requires Valid() && e in history
      ensures e.seqNo in (set x <- history | x.created < t :: x.seqNo) <==> e.created < t
      ensures e in rows ==> (e.seqNo in (set x <- rows | x.created < t :: x.seqNo) <==> e.created < t)
      ensures e.seqNo in (set x <- rows | x.created < t :: x.seqNo) ==> e.created < t
      ensures e.created < t && e.seqNo !in deleted ==> e.seqNo in (set x <- rows | x.created < t :: x.seqNo)
    {
      RemainingMembers(history, deleted);
      forall x | x in history && x.seqNo == e.seqNo
        ensures x == e
      {
        var i :| 0 <= i < |history| && history[i] == x;
        var j :| 0 <= j < |history| && history[j] == e;
      }
    }

    /** MAX(seq) */
    method MaxSeq() returns (top: int)
      requires Valid()
      ensures top == MaxPresent(history, deleted)
    {
      RemainingMaxPresent(history, deleted);
      top := 0;
      for i := 0 to |rows|
        invariant top == MaxPresent(rows[..i], {})
      {
        assert rows[..i + 1][..i] == rows[..i];
        if rows[i].seqNo > top {
          top := rows[i].seqNo;
        }
      }
      assert rows[..|rows|] == rows;
    }

    /** `mark`, `top` and `list`: the watermark, the maximum and the page can be read; what cannot counts as 0, 0 and empty. */
    method SyncEvents(user: int, after: int, requested: int, mark: bool, top: bool, list: bool) returns (reply: SyncReply)
      requires Valid()
      ensures after < 0 <==> reply == InvalidCursor
      ensures reply.NeedsFullSync? <==> mark && 0 < after < watermark
      ensures reply.NeedsFullSync? ==> ContinuesFrom(View(), watermark, top, reply.upTo) && reply.upTo <= lastSeq
      ensures reply.Batch? ==> var r := Serve(View(), user, after, requested);
                               reply == if list then Batch(r.page, r.end, r.hasMore) else Batch([], after, false)
    {
      if after < 0 {
        return InvalidCursor;
      }
      var limit := requested;
      if limit <= 0 || limit > MAX_LIMIT {
        limit := DEFAULT_LIMIT;
      }
      var prunedBelow := if mark then watermark else 0;
      if after > 0 && after < prunedBelow {
        var last := 0;
        if top {
          last := MaxSeq();
        }
        FullSyncNumber(View(), watermark, top);
        return NeedsFullSync(if last > prunedBelow then last else prunedBelow);
      }
      var page: seq<LogEvent> := [];
      if list {
        page := GetEvents(user, after, limit);
      }
      return Batch(page, if page == [] then after else page[|page| - 1].seqNo, |page| >= limit);
    }
  }
}
