/**
 One upload task against the server's chunk store: which chunks are still to be sent, the retry
 budgets, and queries whose answers may arrive while other chunks are already under way.

 `Upload` is the task's state as a value, `Step` what each callback does to it together with the
 server, and the class performs the same steps in place. Every chunk is sealed anew from the
 file as it is when the chunk is sent. A reply may be lost although the chunk was stored, a chunk
 may be stored late or repeatedly, and a query may be answered late; what is answered is true of
 the store. `Run` covers every order in which these things can happen.
 */
module UploadTask {
  import opened CachedFile
  import opened FileCrypto
  import opened FileProtocol
  import opened ObjectStorage
  import opened Wrappers

  const MAX_CHUNK_ATTEMPTS := 3
  const MAX_RECOVERY_ROUNDS := 5

  datatype Status = Running | FailedTask | SentTask
  datatype PutResult = Accepted | TransientFailure | PermanentFailure
  datatype Put = Put(index: nat, body: Bytes)

  /** What the hashing pass settled: layout, key and whole-file digest. */
  datatype Job = Job(cipher: Cipher, manifest: Manifest, sha: string) {

    predicate Valid() {
      manifest.Valid()
    }

    function ChunkCount(): nat
      requires Valid()
    {
      manifest.ChunkCount()
    }

    /** Chunk i sealed from the file as it is now; None when it cannot be read in full. */
    function SealFrom(file: Option<Bytes>, i: nat): Option<Bytes>
      requires Valid()
    {
      MulMonotone(0, i, manifest.PlainChunkSize());
      var offset := i * manifest.PlainChunkSize();
      var want := Min(manifest.PlainChunkSize(), manifest.plainSize - offset);
      if file.None? || want < 0 then None
      else
        var plain := FileRead(file.value, offset, want);
        if |plain| != want then None else Some(cipher.seal(i, plain))
    }
  }

  datatype Upload = Upload(
    remaining: set<nat>,
    active: Option<nat>,
    attempts: nat,
    rounds: nat,
    status: Status,
    issued: seq<Put>,  // the PUTs sent, in order
    queries: nat,      // recovery queries sent
    completions: nat   // completion requests sent
  )

  function Range(n: nat): (r: set<nat>)
    ensures forall i: nat :: i in r <==> i < n
    ensures |r| == n
  {
    if n == 0 then {} else Range(n - 1) + {n - 1}
  }

  function Start(job: Job): Upload
    requires job.Valid()
  {
    Upload(Range(job.ChunkCount()), None, 0, 0, Running, [], 0, 0)
  }

  ghost predicate IsLeast(m: nat, s: set<nat>) {
    m in s && forall x <- s :: m <= x
  }

  ghost function Least(s: set<nat>): (m: nat)
    requires s != {}
    ensures IsLeast(m, s)
  {
    LeastExists(s);
    var m :| IsLeast(m, s);
    m
  }

  lemma LeastIsMember(s: set<nat>)
    ensures s != {} ==> Least(s) in s
  {
  }

  lemma {:induction false} LeastExists(s: set<nat>)
    requires s != {}
    ensures exists m :: IsLeast(m, s)
  {
    var a :| a in s;
    if s == {a} {
      assert IsLeast(a, s);
    } else {
      LeastExists(s - {a});
      var b :| IsLeast(b, s - {a});
      var m := if a <= b then a else b;
      forall x | x in s
        ensures m <= x
      {
        if x != a {
          assert x in s - {a};
        }
      }
      assert IsLeast(m, s);
    }
  }

  /** Sends the lowest remaining chunk; with none left, asks for completion. */
  ghost function SendNext(job: Job, u: Upload, file: Option<Bytes>): Upload
    requires job.Valid()
  {
    if u.active.Some? then u
    else if u.remaining == {} then u.(completions := u.completions + 1)
    else
      var index := Least(u.remaining);
      match job.SealFrom(file, index)
      case None => u.(status := FailedTask)
      case Some(body) => u.(active := Some(index), issued := u.issued + [Put(index, body)])
  }

  /** The scheduler's turn: passes by while anything is in flight, or nothing is left to send. */
  ghost function Pump(job: Job, u: Upload, busy: bool, file: Option<Bytes>): Upload
    requires job.Valid()
  {
    if busy || u.remaining == {} then u else SendNext(job, u, file)
  }

  ghost function FinishPut(job: Job, u: Upload, result: PutResult, file: Option<Bytes>): Upload
    requires job.Valid() && u.active.Some?
  {
    var idle := u.(active := None);
    if result == Accepted then
      SendNext(job, idle.(attempts := 0, remaining := u.remaining - {u.active.value}), file)
    else
      var counted := idle.(attempts := u.attempts + 1, rounds := u.rounds + 1);
      if result == TransientFailure && counted.attempts <= MAX_CHUNK_ATTEMPTS && counted.rounds <= MAX_RECOVERY_ROUNDS
      then counted.(queries := u.queries + 1)
      else counted.(status := FailedTask)
  }

  ghost function FinishQuery(job: Job, u: Upload, ok: bool, received: seq<nat>, busy: bool, file: Option<Bytes>): Upload
    requires job.Valid()
  {
    if ok then Pump(job, u.(remaining := u.remaining - set i | i in received), busy, file)
    else if u.attempts > MAX_CHUNK_ATTEMPTS || u.rounds > MAX_RECOVERY_ROUNDS then u.(status := FailedTask)
    else Pump(job, u, busy, file)
  }

  /** The task, the chunks the server holds for it, and the object assembled from them. */
  datatype World = World(u: Upload, stored: map<nat, Bytes>, blob: Option<Bytes>)

  datatype Event =
    | PumpNext(busy: bool, file: Option<Bytes>)
    | PutFinished(result: PutResult, file: Option<Bytes>)
    | UploadQueried(ok: bool, received: seq<nat>, busy: bool, file: Option<Bytes>)
    | UploadCompleted(ok: bool)
    | StoreChunk(k: nat)   // the server stores the k-th PUT it was sent
    | AssembleObject       // the server works on a completion request

  /** Replies come only to what was asked, and say nothing untrue about the store. */
  predicate Enabled(w: World, e: Event) {
    match e
    case PumpNext(_, _) => true
    case PutFinished(r, _) => w.u.active.Some? && (r == Accepted ==> w.u.active.value in w.stored)
    case UploadQueried(ok, received, _, _) => ok ==> forall i :: i in received ==> i in w.stored
    case UploadCompleted(ok) => w.u.completions > 0 && (ok ==> w.blob.Some?)
    case StoreChunk(k) => k < |w.u.issued|
    case AssembleObject => w.u.completions > 0
  }

  /** The object made of the stored chunks, if they pass every check of ObjectStorage. */
  ghost function Assembled(job: Job, stored: map<nat, Bytes>): Option<Bytes>
    requires job.Valid()
  {
    if Verdict(job.cipher.digest, stored, job.manifest.cipherSize, job.manifest.chunkSize, job.ChunkCount(), job.sha) == Ok
    then Some(Concat(ChunkSeq(stored, job.ChunkCount())))
    else None
  }

  ghost function Step(job: Job, w: World, e: Event): World
    requires job.Valid()
  {
    if !Enabled(w, e) then w
    else match e
      case StoreChunk(k) => w.(stored := w.stored[w.u.issued[k].index := w.u.issued[k].body])
      case AssembleObject => if w.blob.Some? then w else w.(blob := Assembled(job, w.stored))
      case _ => if w.u.status != Running then w else w.(u := TaskStep(job, w.u, e))
  }

  ghost function TaskStep(job: Job, u: Upload, e: Event): Upload
    requires job.Valid() && (e.PutFinished? ==> u.active.Some?)
  {
    match e
    case PumpNext(busy, file) => Pump(job, u, busy, file)
    case PutFinished(r, file) => FinishPut(job, u, r, file)
    case UploadQueried(ok, received, busy, file) => FinishQuery(job, u, ok, received, busy, file)
    case UploadCompleted(ok) => u.(status := if ok then SentTask else FailedTask)
    case _ => u
  }

  ghost function Run(job: Job, es: seq<Event>): World
    requires job.Valid()
  {
    if es == [] then World(Start(job), map[], None) else Step(job, Run(job, es[..|es| - 1]), es[|es| - 1])
  }

  // ---- What ends a task ----

  /** Refused PUTs since the last accepted one, told by the run. */
  ghost function RefusedInARow(job: Job, es: seq<Event>): nat
    requires job.Valid()
  {
    if es == [] then 0
    else
      var e := es[|es| - 1];
      var before := RefusedInARow(job, es[..|es| - 1]);
      if !e.PutFinished? || !Enabled(Run(job, es[..|es| - 1]), e) then before
      else if e.result == Accepted then 0 else before + 1
  }

  ghost function Refused(job: Job, es: seq<Event>): nat
    requires job.Valid()
  {
    if es == [] then 0
    else
      var e := es[|es| - 1];
      Refused(job, es[..|es| - 1])
      + if e.PutFinished? && Enabled(Run(job, es[..|es| - 1]), e) && e.result != Accepted then 1 else 0
  }

  /** A running task's counters count these, and stay within the budgets. */
  predicate Tallied(u: Upload, row: nat, all: nat) {
    u.status == Running ==> u.attempts == row <= MAX_CHUNK_ATTEMPTS && u.rounds == all <= MAX_RECOVERY_ROUNDS
  }

  lemma SendNextKeepsTally(job: Job, u: Upload, file: Option<Bytes>, row: nat, all: nat)
    requires job.Valid() && Tallied(u, row, all)
    ensures Tallied(SendNext(job, u, file), row, all)
  {
    hide Job.SealFrom, Manifest.ChunkCount, Manifest.Valid;
  }

  lemma StepKeepsTally(job: Job, w: World, e: Event, row: nat, all: nat)
    requires job.Valid() && Tallied(w.u, row, all)
    ensures var refused := e.PutFinished? && Enabled(w, e) && e.result != Accepted;
            var accepted := e.PutFinished? && Enabled(w, e) && e.result == Accepted;
            Tallied(Step(job, w, e).u, if accepted then 0 else if refused then row + 1 else row, if refused then all + 1 else all)
  {
    hide SendNext, Assembled, Manifest.ChunkCount, Manifest.Valid;
    if Enabled(w, e) && w.u.status == Running {
      match e {
        case PumpNext(_, file) => SendNextKeepsTally(job, w.u, file, row, all);
        case PutFinished(_, file) =>
          var idle := w.u.(active := None);
          SendNextKeepsTally(job, idle.(attempts := 0, remaining := w.u.remaining - {w.u.active.value}), file, 0, all);
        case UploadQueried(_, received, _, file) =>
          SendNextKeepsTally(job, w.u, file, row, all);
          SendNextKeepsTally(job, w.u.(remaining := w.u.remaining - set i | i in received), file, row, all);
        case _ =>
      }
    }
  }

  lemma {:induction false} RunKeepsTally(job: Job, es: seq<Event>)
    requires job.Valid()
    ensures Tallied(Run(job, es).u, RefusedInARow(job, es), Refused(job, es))
  {
    hide Step, Enabled, Manifest.ChunkCount, Manifest.Valid;
    if es != [] {
      RunKeepsTally(job, es[..|es| - 1]);
      StepKeepsTally(job, Run(job, es[..|es| - 1]), es[|es| - 1],
                     RefusedInARow(job, es[..|es| - 1]), Refused(job, es[..|es| - 1]));
    }
  }

  /** The lowest of these chunks is to be sent, but the file does not have it any more. */
  ghost predicate CannotSend(job: Job, left: set<nat>, file: Option<Bytes>)
    requires job.Valid()
  {
    left != {} && job.SealFrom(file, Least(left)).None?
  }

  /** What makes a task fail: `row` and `all` PUTs have been refused, in a row and altogether. */
  ghost predicate Fatal(job: Job, u: Upload, e: Event, row: nat, all: nat)
    requires job.Valid() && (e.PutFinished? ==> u.active.Some?)
  {
    match e
    case PutFinished(Accepted, file) => CannotSend(job, u.remaining - {u.active.value}, file)
    case PutFinished(PermanentFailure, _) => true
    case PutFinished(TransientFailure, _) => row == MAX_CHUNK_ATTEMPTS || all == MAX_RECOVERY_ROUNDS
    case UploadQueried(ok, received, busy, file) =>
      !busy && u.active.None? && CannotSend(job, if ok then u.remaining - set i | i in received else u.remaining, file)
    case PumpNext(busy, file) => !busy && u.active.None? && CannotSend(job, u.remaining, file)
    case UploadCompleted(ok) => !ok
    case _ => false
  }

  /**
   In any run an event makes a running task fail exactly when a PUT is refused for good, or transiently
   after three refusals in a row or five altogether, the chunk to send next cannot be read in full, or
   the server refuses completion; a query's failure alone never does. A task is sent exactly when the
   server has confirmed completion.
   */
  lemma UploadEndsExactlyWhen(job: Job, es: seq<Event>, e: Event)
    requires job.Valid() && Run(job, es).u.status == Running && Enabled(Run(job, es), e)
    ensures var t := Run(job, es + [e]).u;
            && (t.status == FailedTask <==> Fatal(job, Run(job, es).u, e, RefusedInARow(job, es), Refused(job, es)))
            && (t.status == SentTask <==> e == UploadCompleted(true))
  {
    RunKeepsTally(job, es);
    assert (es + [e])[..|es|] == es;
    hide RefusedInARow, Refused, Step, Fatal, Enabled, Tallied, Manifest.ChunkCount, Manifest.Valid;
    StepEnds(job, Run(job, es), e, RefusedInARow(job, es), Refused(job, es));
  }

  lemma StepEnds(job: Job, w: World, e: Event, row: nat, all: nat)
    requires job.Valid() && w.u.status == Running && Enabled(w, e) && Tallied(w.u, row, all)
    ensures var t := Step(job, w, e).u;
            && (t.status == FailedTask <==> Fatal(job, w.u, e, row, all))
            && (t.status == SentTask <==> e == UploadCompleted(true))
  {
    hide Job.SealFrom, Assembled, Least, Manifest.ChunkCount, Manifest.Valid;
  }

  /** A refusal that is not fatal loses nothing: the chunk stays to be sent, and the server is asked what it has. */
  lemma RefusalKeepsProgress(job: Job, es: seq<Event>, result: PutResult, file: Option<Bytes>)
    requires job.Valid() && Run(job, es).u.status == Running && Run(job, es).u.active.Some? && result != Accepted
    requires Run(job, es + [PutFinished(result, file)]).u.status == Running
    ensures var u, t := Run(job, es).u, Run(job, es + [PutFinished(result, file)]).u;
            && t.active.None? && t.remaining == u.remaining && t.issued == u.issued
            && t.queries == u.queries + 1 && t.completions == u.completions
  {
    var e := PutFinished(result, file);
    assert (es + [e])[..|es|] == es;
    hide SendNext, Manifest.ChunkCount, Manifest.Valid;
    var w := Run(job, es);
    assert Run(job, es + [e]) == Step(job, w, e) by {
      hide Step;
    }
    hide Run;
  }

  // ---- Budgets ----

  /** Every PUT but the one in flight was acknowledged, or cost one recovery round. */
  ghost predicate Counted(job: Job, u: Upload, acked: set<nat>)
    requires job.Valid()
  {
    var all := Range(job.ChunkCount());
    && u.remaining <= all && acked <= all && acked !! u.remaining
    && (u.active.Some? ==> u.active.value in all && u.active.value !in acked)
    && |u.issued| == |acked| + u.rounds + (if u.active.Some? then 1 else 0)
    && u.queries <= MAX_RECOVERY_ROUNDS && u.rounds <= MAX_RECOVERY_ROUNDS + 1
    && (u.status == Running ==> u.queries == u.rounds)
    && (u.rounds == MAX_RECOVERY_ROUNDS + 1 ==> acked != all && u.active.None?)
    && (u.completions > 0 ==> u.completions == 1 && u.remaining == {} && u.active.None?)
  }

  function Acked(w: World, e: Event, acked: set<nat>): set<nat> {
    if w.u.status == Running && Enabled(w, e) && e.PutFinished? && e.result == Accepted
    then acked + {w.u.active.value} else acked
  }

  lemma SendNextKeepsCounts(job: Job, u: Upload, file: Option<Bytes>, acked: set<nat>)
    requires job.Valid() && Counted(job, u, acked) && u.status == Running
    requires u.completions == 0 || u.remaining != {}
    ensures Counted(job, SendNext(job, u, file), acked)
  {
    hide Job.SealFrom, Manifest.ChunkCount, Manifest.Valid, Range;
  }

  lemma AcceptedKeepsCounts(job: Job, u: Upload, file: Option<Bytes>, acked: set<nat>)
    requires job.Valid() && Counted(job, u, acked) && u.status == Running && u.active.Some?
    ensures Counted(job, FinishPut(job, u, Accepted, file), acked + {u.active.value})
  {
    hide SendNext, Manifest.ChunkCount, Manifest.Valid, Range;
    var i := u.active.value;
    assert |acked + {i}| == |acked| + 1;
    SendNextKeepsCounts(job, u.(active := None, attempts := 0, remaining := u.remaining - {i}), file, acked + {i});
  }

  lemma RefusedKeepsCounts(job: Job, u: Upload, result: PutResult, file: Option<Bytes>, acked: set<nat>)
    requires job.Valid() && Counted(job, u, acked) && u.status == Running && u.active.Some? && result != Accepted
    ensures Counted(job, FinishPut(job, u, result, file), acked)
  {
    hide SendNext, Manifest.ChunkCount, Manifest.Valid, Range;
  }

  lemma QueryKeepsCounts(job: Job, u: Upload, ok: bool, received: seq<nat>, busy: bool, file: Option<Bytes>, acked: set<nat>)
    requires job.Valid() && Counted(job, u, acked) && u.status == Running
    ensures Counted(job, FinishQuery(job, u, ok, received, busy, file), acked)
  {
    hide SendNext, Manifest.ChunkCount, Manifest.Valid, Range;
    var left := u.(remaining := u.remaining - set i | i in received);
    if u.remaining != {} {
      SendNextKeepsCounts(job, u, file, acked);
    }
    if left.remaining != {} {
      SendNextKeepsCounts(job, left, file, acked);
    }
  }

  lemma StepKeepsCounts(job: Job, w: World, e: Event, acked: set<nat>)
    requires job.Valid() && Counted(job, w.u, acked)
    ensures Counted(job, Step(job, w, e).u, Acked(w, e, acked))
  {
    hide Assembled, SendNext, FinishPut, FinishQuery, Manifest.ChunkCount, Manifest.Valid, Range;
    if Enabled(w, e) && w.u.status == Running {
      match e {
        case PumpNext(_, file) =>
          if w.u.remaining != {} {
            SendNextKeepsCounts(job, w.u, file, acked);
          }
        case PutFinished(result, file) =>
          if result == Accepted {
            AcceptedKeepsCounts(job, w.u, file, acked);
          } else {
            RefusedKeepsCounts(job, w.u, result, file, acked);
          }
        case UploadQueried(ok, received, busy, file) => QueryKeepsCounts(job, w.u, ok, received, busy, file, acked);
        case UploadCompleted(_) =>
        case StoreChunk(_) =>
        case AssembleObject =>
      }
    }
  }

  lemma {:induction false} RunKeepsCounts(job: Job, es: seq<Event>) returns (acked: set<nat>)
    requires job.Valid()
    ensures Counted(job, Run(job, es).u, acked)
  {
    acked := {};
    if es != [] {
      var before := RunKeepsCounts(job, es[..|es| - 1]);
      var w := Run(job, es[..|es| - 1]);
      hide Step, Counted, Acked;
      StepKeepsCounts(job, w, es[|es| - 1], before);
      acked := Acked(w, es[|es| - 1], before);
    }
  }

  lemma SubsetSize(a: set<nat>, b: set<nat>)
    requires a <= b
    ensures |a| <= |b|
    ensures |a| == |b| ==> a == b
  {
    assert b == a + (b - a) && |b| == |a| + |b - a|;
  }

  /** Over any run: at most n + 5 PUTs, at most 5 recovery queries, completion requested at most once. */
  lemma UploadBudgets(job: Job, es: seq<Event>)
    requires job.Valid()
    ensures |Run(job, es).u.issued| <= job.ChunkCount() + MAX_RECOVERY_ROUNDS
    ensures Run(job, es).u.queries <= MAX_RECOVERY_ROUNDS
    ensures Run(job, es).u.completions <= 1
  {
    var u := Run(job, es).u;
    var acked := RunKeepsCounts(job, es);
    SubsetSize(acked, Range(job.ChunkCount()));
    if u.active.Some? {
      SubsetSize(acked + {u.active.value}, Range(job.ChunkCount()));
    }
  }

  // ---- What reaches the server ----

  /** Whatever the server holds was sent for that index. */
  ghost predicate Sourced(w: World) {
    forall i :: i in w.stored ==> Put(i, w.stored[i]) in w.u.issued
  }

  ghost predicate InRange(job: Job, u: Upload)
    requires job.Valid()
  {
    && (forall put :: put in u.issued ==> put.index < job.ChunkCount())
    && u.remaining <= Range(job.ChunkCount())
  }

  /** Nothing that has not still to be sent is missing. */
  ghost predicate Covered(job: Job, w: World)
    requires job.Valid()
  {
    && (forall i: nat :: i < job.ChunkCount() && i !in w.u.remaining ==> i in w.stored)
    && (w.u.completions > 0 ==> w.u.remaining == {})
    && (w.u.status == SentTask ==> w.blob.Some?)
    && (w.blob.Some? ==> w.u.completions > 0)
  }

  ghost predicate Honest(job: Job, w: World)
    requires job.Valid()
  {
    Sourced(w) && InRange(job, w.u) && Covered(job, w)
  }

  /** The object, once there, is an accepted assembly of chunks that were sent. */
  ghost predicate Delivered(job: Job, w: World)
    requires job.Valid()
  {
    w.blob.Some? ==> exists chunks ::
      && (forall i :: i in chunks ==> Put(i, chunks[i]) in w.u.issued)
      && Assembled(job, chunks) == w.blob
  }

  /** A task step sends at most one further chunk, one that was remaining. */
  lemma TaskStepSends(job: Job, u: Upload, e: Event)
    requires job.Valid() && (e.PutFinished? ==> u.active.Some?)
    ensures TaskStep(job, u, e).remaining <= u.remaining
    ensures var sent := TaskStep(job, u, e).issued;
            sent == u.issued || (sent != [] && sent[..|sent| - 1] == u.issued && sent[|sent| - 1].index in u.remaining)
  {
    hide Job.SealFrom, Manifest.ChunkCount, Manifest.Valid;
  }

  lemma StepKeepsSourced(job: Job, w: World, e: Event)
    requires job.Valid() && Honest(job, w)
    ensures w.u.issued <= Step(job, w, e).u.issued
    ensures Sourced(Step(job, w, e)) && InRange(job, Step(job, w, e).u)
  {
    hide Manifest.ChunkCount, Manifest.Valid, Assembled, Covered;
    if Enabled(w, e) && !e.AssembleObject? {
      if e.StoreChunk? {
        assert w.u.issued[e.k] in w.u.issued;
      } else {
        TaskStepSends(job, w.u, e);
        hide TaskStep;
        SentGrows(job, w.u, Step(job, w, e).u);
      }
    }
  }

  lemma SentGrows(job: Job, u: Upload, after: Upload)
    requires job.Valid() && InRange(job, u) && after.remaining <= u.remaining
    requires || after.issued == u.issued
             || (after.issued != [] && after.issued[..|after.issued| - 1] == u.issued
                 && after.issued[|after.issued| - 1].index in u.remaining)
    ensures InRange(job, after) && u.issued <= after.issued
    ensures forall put :: put in u.issued ==> put in after.issued
  {
    hide Manifest.ChunkCount, Manifest.Valid;
  }

  /** A chunk leaves the set only when the server said it has it; an empty set stays empty. */
  lemma TaskStepRemoves(job: Job, u: Upload, e: Event)
    requires job.Valid() && (e.PutFinished? ==> u.active.Some?)
    ensures forall i :: i in u.remaining && i !in TaskStep(job, u, e).remaining ==>
              || (e.PutFinished? && e.result == Accepted && u.active.value == i)
              || (e.UploadQueried? && e.ok && i in e.received)
    ensures TaskStep(job, u, e).completions > u.completions ==> TaskStep(job, u, e).remaining == {}
    ensures TaskStep(job, u, e).completions >= u.completions
    ensures TaskStep(job, u, e).status == SentTask && u.status == Running ==> e == UploadCompleted(true)
  {
    hide Job.SealFrom, Manifest.ChunkCount, Manifest.Valid;
  }

  lemma StepKeepsCovered(job: Job, w: World, e: Event)
    requires job.Valid() && Covered(job, w)
    ensures Covered(job, Step(job, w, e))
  {
    hide Assembled, Manifest.ChunkCount, Manifest.Valid;
    if Enabled(w, e) && !e.StoreChunk? && !e.AssembleObject? {
      TaskStepRemoves(job, w.u, e);
      TaskStepSends(job, w.u, e);
      hide TaskStep;
    }
  }

  lemma StepKeepsHonest(job: Job, w: World, e: Event)
    requires job.Valid() && Honest(job, w)
    ensures Honest(job, Step(job, w, e))
    ensures w.u.issued <= Step(job, w, e).u.issued
  {
    hide Sourced, InRange, Covered, Step;
    StepKeepsSourced(job, w, e);
    StepKeepsCovered(job, w, e);
  }

  lemma StepKeepsDelivered(job: Job, w: World, e: Event)
    requires job.Valid() && Honest(job, w) && Delivered(job, w)
    ensures Delivered(job, Step(job, w, e))
  {
    StepKeepsHonest(job, w, e);
    hide Job.SealFrom, Assembled, TaskStep, Honest;
    var after := Step(job, w, e);
    if w.blob.Some? {
      var chunks :| (forall i :: i in chunks ==> Put(i, chunks[i]) in w.u.issued) && Assembled(job, chunks) == w.blob;
      assert forall i :: i in chunks ==> Put(i, chunks[i]) in after.u.issued;
    } else if after.blob.Some? {
      assert Assembled(job, w.stored) == after.blob;
      assert forall i :: i in w.stored ==> Put(i, w.stored[i]) in after.u.issued by {
        assert Honest(job, w);
      }
    }
  }

  lemma {:induction false} RunDelivers(job: Job, es: seq<Event>)
    requires job.Valid()
    ensures Honest(job, Run(job, es)) && Delivered(job, Run(job, es))
  {
    if es != [] {
      RunDelivers(job, es[..|es| - 1]);
      hide Step, Honest, Delivered;
      StepKeepsHonest(job, Run(job, es[..|es| - 1]), es[|es| - 1]);
      StepKeepsDelivered(job, Run(job, es[..|es| - 1]), es[|es| - 1]);
    }
  }

  /** The object has the declared length and digest. */
  lemma AssembledChecks(job: Job, chunks: map<nat, Bytes>)
    requires job.Valid() && Assembled(job, chunks).Some?
    ensures |Assembled(job, chunks).value| == job.manifest.cipherSize
    ensures job.cipher.digest(Assembled(job, chunks).value) == job.sha
  {
    var m := job.manifest;
    MatchingSizesAddUp(chunks, m.cipherSize, m.chunkSize, job.ChunkCount(), job.ChunkCount());
    CeilDivBounds(m.cipherSize, m.chunkSize);
    assert ChunkSeq(chunks, job.ChunkCount())[..job.ChunkCount()] == ChunkSeq(chunks, job.ChunkCount());
  }

  /** The job the sender's hashing pass produced for `plain`. */
  ghost predicate HashedFrom(job: Job, plain: Bytes) {
    && job.cipher.Ideal() && Describes(job.manifest, plain)
    && job.sha == job.cipher.digest(Blob(job.cipher, plain, job.manifest.PlainChunkSize()))
  }

  /**
   Whatever became of the file on disk after it was hashed, whatever was lost or repeated: an
   object that exists is the ciphertext that was hashed.
   */
  lemma {:induction false} UploadDeliversHashedFile(job: Job, plain: Bytes, es: seq<Event>)
    requires HashedFrom(job, plain)
    requires job.cipher.Pins(Blob(job.cipher, plain, job.manifest.PlainChunkSize()))
    ensures Run(job, es).u.status == SentTask ==> Run(job, es).blob.Some?
    ensures Run(job, es).blob in {None, Some(Blob(job.cipher, plain, job.manifest.PlainChunkSize()))}
  {
    var w := Run(job, es);
    RunDelivers(job, es);
    if w.blob.Some? {
      var chunks :| (forall i :: i in chunks ==> Put(i, chunks[i]) in w.u.issued) && Assembled(job, chunks) == w.blob;
      AssembledChecks(job, chunks);
    }
  }

  // ---- The undisturbed file ----

  /** Every read along the run, when it succeeds, sees the file that was hashed. */
  predicate ReadsOnly(es: seq<Event>, plain: Bytes) {
    forall e <- es ::
      (e.PumpNext? || e.PutFinished? || e.UploadQueried?) ==> e.file in {None, Some(plain)}
  }

  /** Chunk i as the hashing pass sealed it. */
  function HashedChunk(job: Job, plain: Bytes, i: nat): Bytes
    requires job.Valid()
  {
    job.cipher.seal(i, PlainChunk(plain, job.manifest.PlainChunkSize(), i))
  }

  /** Re-sealing a chunk at upload time gives the very bytes that were hashed. */
  lemma SealedAgain(job: Job, plain: Bytes, i: nat)
    requires HashedFrom(job, plain) && i < job.ChunkCount()
    ensures job.SealFrom(Some(plain), i) == Some(HashedChunk(job, plain, i))
  {
    var p := job.manifest.PlainChunkSize();
    DescribedChunkCount(job.manifest, plain);
    CeilDivBounds(|plain|, p);
    MulMonotone(i, job.ChunkCount() - 1, p);
    assert (i + 1) * p == i * p + p;
    assert PlainChunk(plain, p, i) == FileRead(plain, i * p, Min(p, |plain| - i * p));
  }

  ghost predicate SentAsHashed(job: Job, plain: Bytes, u: Upload)
    requires job.Valid()
  {
    && u.remaining <= Range(job.ChunkCount())
    && (forall put :: put in u.issued ==> put.body == HashedChunk(job, plain, put.index))
  }

  lemma SendNextAsHashed(job: Job, plain: Bytes, u: Upload, file: Option<Bytes>)
    requires HashedFrom(job, plain) && SentAsHashed(job, plain, u) && file in {None, Some(plain)}
    ensures SentAsHashed(job, plain, SendNext(job, u, file))
  {
    if u.remaining != {} {
      SealedAgain(job, plain, Least(u.remaining));
    }
  }

  lemma StepSendsAsHashed(job: Job, plain: Bytes, w: World, e: Event)
    requires HashedFrom(job, plain) && SentAsHashed(job, plain, w.u) && ReadsOnly([e], plain)
    ensures SentAsHashed(job, plain, Step(job, w, e).u)
  {
    var u := w.u;
    assert e in [e];
    if Enabled(w, e) && u.status == Running {
      hide HashedFrom, HashedChunk, Assembled, SendNext;
      match e {
        case PumpNext(_, file) =>
          SendNextAsHashed(job, plain, u, file);
        case PutFinished(Accepted, file) =>
          var sent := u.(active := None, attempts := 0, remaining := u.remaining - {u.active.value});
          SendNextAsHashed(job, plain, sent, file);
        case UploadQueried(_, received, _, file) =>
          SendNextAsHashed(job, plain, u, file);
          SendNextAsHashed(job, plain, u.(remaining := u.remaining - set i | i in received), file);
        case _ =>
      }
    }
  }

  lemma {:induction false} RunSendsAsHashed(job: Job, plain: Bytes, es: seq<Event>)
    requires HashedFrom(job, plain) && ReadsOnly(es, plain)
    ensures SentAsHashed(job, plain, Run(job, es).u)
  {
    if es != [] {
      RunSendsAsHashed(job, plain, es[..|es| - 1]);
      StepSendsAsHashed(job, plain, Run(job, es[..|es| - 1]), es[|es| - 1]);
    }
  }

  lemma StoredAsHashed(job: Job, plain: Bytes, w: World, i: nat)
    requires HashedFrom(job, plain) && SentAsHashed(job, plain, w.u) && Honest(job, w)
    requires i < job.ChunkCount() && i in w.stored
    ensures w.stored[i] == HashedChunk(job, plain, i)
    ensures |w.stored[i]| == ExpectedChunkBytes(job.manifest.cipherSize, job.manifest.chunkSize, job.ChunkCount(), i)
  {
    var m := job.manifest;
    assert Put(i, w.stored[i]) in w.u.issued;
    DescribedChunkCount(m, plain);
    LayoutPartitions(m.cipherSize, m.chunkSize, job.ChunkCount(), i);
    SealedChunkLength(job.cipher, plain, m.chunkSize, i);
  }

  /** A full store of the hashed chunks passes every check and assembles to the hashed ciphertext. */
  lemma HashedChunksAssemble(job: Job, plain: Bytes, stored: map<nat, Bytes>)
    requires HashedFrom(job, plain)
    requires Complete(stored, job.ChunkCount())
    requires SizesMatch(stored, job.manifest.cipherSize, job.manifest.chunkSize, job.ChunkCount())
    requires forall i: nat :: i < job.ChunkCount() ==> stored[i] == HashedChunk(job, plain, i)
    ensures Assembled(job, stored) == Some(Blob(job.cipher, plain, job.manifest.PlainChunkSize()))
  {
    DescribedChunkCount(job.manifest, plain);
    hide ExpectedChunkBytes, CeilDiv, PlainChunk, SizesMatch;
    assert ChunkSeq(stored, job.ChunkCount()) == CipherChunks(job.cipher, plain, job.manifest.PlainChunkSize());
  }

  /**
   With the file left alone, a completion request finds every chunk in place: the server accepts
   it, and the object is the ciphertext that was hashed, no property of the digest being needed.
   */
  lemma CompletionSucceeds(job: Job, plain: Bytes, es: seq<Event>)
    requires HashedFrom(job, plain) && ReadsOnly(es, plain)
    requires Run(job, es).u.completions > 0
    ensures Assembled(job, Run(job, es).stored) == Some(Blob(job.cipher, plain, job.manifest.PlainChunkSize()))
  {
    var w := Run(job, es);
    var m := job.manifest;
    RunDelivers(job, es);
    RunSendsAsHashed(job, plain, es);
    hide Run, SentAsHashed, HashedFrom, HashedChunk, ExpectedChunkBytes, Manifest.ChunkCount, Manifest.Valid, Assembled, Blob;
    forall i: nat
      ensures i in w.stored <==> i < job.ChunkCount()
    {
      if i in w.stored {
        assert Put(i, w.stored[i]) in w.u.issued;
      }
    }
    hide Honest;
    forall i: nat | i < job.ChunkCount()
      ensures w.stored[i] == HashedChunk(job, plain, i)
      ensures |w.stored[i]| == ExpectedChunkBytes(m.cipherSize, m.chunkSize, job.ChunkCount(), i)
    {
      StoredAsHashed(job, plain, w, i);
    }
    HashedChunksAssemble(job, plain, w.stored);
  }

  /** With the file left alone, an object that exists is the hashed ciphertext, whatever the digest. */
  lemma ObjectIsHashedFile(job: Job, plain: Bytes, es: seq<Event>)
    requires HashedFrom(job, plain) && ReadsOnly(es, plain)
    ensures Run(job, es).blob in {None, Some(Blob(job.cipher, plain, job.manifest.PlainChunkSize()))}
  {
    var w := Run(job, es);
    RunDelivers(job, es);
    RunSendsAsHashed(job, plain, es);
    hide Run, HashedFrom, HashedChunk, Honest;
    if w.blob.Some? {
      var chunks :| (forall i :: i in chunks ==> Put(i, chunks[i]) in w.u.issued) && Assembled(job, chunks) == w.blob;
      hide Delivered;
      forall i: nat | i < job.ChunkCount()
        ensures chunks[i] == HashedChunk(job, plain, i)
      {
        assert Put(i, chunks[i]) in w.u.issued;
      }
      HashedChunksAssemble(job, plain, chunks);
    }
  }

  // ---- Uploads that succeed ----

  /** Nothing goes wrong, up to the acceptance of the k-th chunk. */
  function Straight(plain: Bytes, k: nat): seq<Event> {
    if k == 0 then [PumpNext(false, Some(plain))]
    else Straight(plain, k - 1) + [StoreChunk(k - 1)] + [PutFinished(Accepted, Some(plain))]
  }

  /** The first k chunks are stored, the next one is under way, or completion was requested. */
  ghost predicate HalfWay(job: Job, w: World, k: nat)
    requires job.Valid()
  {
    && w.u.status == Running && w.u.attempts == 0 && w.u.rounds == 0 && w.blob.None?
    && (forall i: nat :: i in w.u.remaining <==> k <= i < job.ChunkCount())
    && (forall i: nat :: i < k ==> i in w.stored)
    && (if k < job.ChunkCount()
        then w.u.active == Some(k) && |w.u.issued| == k + 1 && w.u.issued[k].index == k && w.u.completions == 0
        else w.u.active.None? && |w.u.issued| == k && w.u.completions == 1)
  }

  lemma NextChunkSent(job: Job, plain: Bytes, u: Upload, k: nat)
    requires HashedFrom(job, plain) && u.active.None? && |u.issued| == k
    requires forall i: nat :: i in u.remaining <==> k <= i < job.ChunkCount()
    ensures var v := SendNext(job, u, Some(plain));
            if k < job.ChunkCount()
            then v == u.(active := Some(k), issued := v.issued) && |v.issued| == k + 1 && v.issued[k].index == k
            else v == u.(completions := u.completions + 1)
  {
    if k < job.ChunkCount() {
      SealedAgain(job, plain, k);
      hide HashedFrom, HashedChunk, Job.SealFrom, Manifest.ChunkCount, Manifest.Valid;
      assert k in u.remaining;
      assert Least(u.remaining) == k;
    } else {
      assert u.remaining == {};
    }
  }

  lemma NextHalfWay(job: Job, plain: Bytes, w: World, k: nat)
    requires HashedFrom(job, plain) && k < job.ChunkCount() && HalfWay(job, w, k)
    ensures HalfWay(job, Step(job, Step(job, w, StoreChunk(k)), PutFinished(Accepted, Some(plain))), k + 1)
  {
    NextChunkSent(job, plain, w.u.(active := None, attempts := 0, remaining := w.u.remaining - {k}), k + 1);
    hide HashedFrom, SendNext, Assembled, Manifest.ChunkCount, Manifest.Valid;
    var stored := Step(job, w, StoreChunk(k));
    assert stored.u == w.u && k in stored.stored;
  }

  lemma FirstHalfWay(job: Job, plain: Bytes)
    requires HashedFrom(job, plain)
    ensures HalfWay(job, Step(job, World(Start(job), map[], None), PumpNext(false, Some(plain))), 0)
  {
    assert job.ChunkCount() > 0;
    assert 0 in Start(job).remaining;
    NextChunkSent(job, plain, Start(job), 0);
    hide HashedFrom, SendNext, Manifest.ChunkCount, Manifest.Valid;
  }

  lemma RunStraight(job: Job, plain: Bytes, k: nat)
    requires job.Valid()
    ensures Run(job, Straight(plain, k)) ==
              if k == 0 then Step(job, World(Start(job), map[], None), PumpNext(false, Some(plain)))
              else Step(job, Step(job, Run(job, Straight(plain, k - 1)), StoreChunk(k - 1)), PutFinished(Accepted, Some(plain)))
  {
    hide Step;
    var es := Straight(plain, k);
    if k == 0 {
      assert es[..0] == [];
    } else {
      var stored := Straight(plain, k - 1) + [StoreChunk(k - 1)];
      assert stored[..|stored| - 1] == Straight(plain, k - 1) && es[..|es| - 1] == stored;
    }
  }

  lemma {:induction false} StraightRun(job: Job, plain: Bytes, k: nat)
    requires job.Valid() && HashedFrom(job, plain) && k <= job.ChunkCount()
    ensures HalfWay(job, Run(job, Straight(plain, k)), k)
  {
    hide Step, Run, HalfWay, Straight, HashedFrom, Manifest.ChunkCount, Manifest.Valid;
    RunStraight(job, plain, k);
    if k == 0 {
      FirstHalfWay(job, plain);
    } else {
      StraightRun(job, plain, k - 1);
      NextHalfWay(job, plain, Run(job, Straight(plain, k - 1)), k - 1);
    }
  }

  lemma {:induction false} StraightReads(plain: Bytes, k: nat)
    ensures ReadsOnly(Straight(plain, k), plain)
  {
    if k > 0 {
      StraightReads(plain, k - 1);
    }
  }

  /** Every file can be uploaded: with nothing going wrong the object is the hashed ciphertext. */
  lemma UploadCanSucceed(job: Job, plain: Bytes)
    requires HashedFrom(job, plain)
    ensures exists es :: && ReadsOnly(es, plain) && Run(job, es).u.status == SentTask
                         && Run(job, es).blob == Some(Blob(job.cipher, plain, job.manifest.PlainChunkSize()))
  {
    assert job.Valid();
    hide Run, Step, HashedFrom, Assembled, Blob, Straight, Manifest.ChunkCount, Manifest.Valid;
    var sent := Straight(plain, job.ChunkCount());
    StraightRun(job, plain, job.ChunkCount());
    StraightReads(plain, job.ChunkCount());
    CompletionSucceeds(job, plain, sent);
    RunTwo(job, sent, AssembleObject, UploadCompleted(true));
    Completes(job, Run(job, sent));
    var es := sent + [AssembleObject, UploadCompleted(true)];
    assert ReadsOnly(es, plain) && Run(job, es).u.status == SentTask;
  }

  // ---- Uploads that stop ----

  /** Nothing left to send, nothing in flight, completion never requested. */
  ghost predicate Stranded(u: Upload) {
    u.remaining == {} && u.active.None? && u.completions == 0 && u.status != SentTask
  }

  /**
   Completion is requested by an accepted PUT that leaves nothing to send, and by nothing else:
   a query whose answer empties the set strands the task, and no reply or scheduler turn ever
   takes it further.
   */
  lemma {:induction false} StrandedForever(job: Job, es: seq<Event>, later: seq<Event>)
    requires job.Valid() && Stranded(Run(job, es).u)
    ensures Stranded(Run(job, es + later).u) && Run(job, es + later).blob == None
  {
    if later == [] {
      RunDelivers(job, es);
      assert es + later == es;
    } else {
      var last := |later| - 1;
      StrandedForever(job, es, later[..last]);
      assert (es + later)[..|es + later| - 1] == es + later[..last];
    }
  }

  lemma RunStep(job: Job, es: seq<Event>, k: nat)
    requires job.Valid() && k < |es|
    ensures Run(job, es[..k + 1]) == Step(job, Run(job, es[..k]), es[k])
  {
    assert es[..k + 1][..k] == es[..k];
  }

  /** Everything goes well but for the reply to the last chunk, which is lost; a query then reports what is stored. */
  function LastReplyLost(plain: Bytes, n: nat): seq<Event>
    requires n > 0
  {
    Straight(plain, n - 1) + [StoreChunk(n - 1)] + [PutFinished(TransientFailure, Some(plain))]
    + [UploadQueried(true, seq(n, (i: nat) => i), false, Some(plain))]
  }

  lemma QueryEmptiesTask(job: Job, plain: Bytes, w: World, n: nat)
    requires job.Valid() && job.ChunkCount() == n > 0 && HalfWay(job, w, n - 1)
    ensures var t := Step(job, Step(job, w, StoreChunk(n - 1)), PutFinished(TransientFailure, Some(plain)));
            var u := Step(job, t, UploadQueried(true, seq(n, (i: nat) => i), false, Some(plain))).u;
            Stranded(u) && u.status == Running
  {
    hide Job.SealFrom, SendNext, Assembled, Manifest.ChunkCount, Manifest.Valid;
    var received := seq(n, (i: nat) => i);
    var stored := Step(job, w, StoreChunk(n - 1));
    assert stored.u == w.u && forall i: nat :: i < n ==> i in stored.stored;
    var t := Step(job, stored, PutFinished(TransientFailure, Some(plain)));
    assert t.stored == stored.stored && t.u.active.None? && t.u.status == Running && t.u.remaining == w.u.remaining;
    assert received[n - 1] == n - 1 && n - 1 in received;
    assert t.u.remaining - (set i | i in received) == {};
  }

  /** Stranding does happen, to files of any number of chunks. */
  lemma StrandingHappens(job: Job, plain: Bytes)
    requires job.Valid() && HashedFrom(job, plain)
    ensures exists es :: ReadsOnly(es, plain) && Stranded(Run(job, es).u) && Run(job, es).u.status == Running
  {
    hide Step, HalfWay, Stranded, Straight, HashedFrom, Job.SealFrom, Manifest.ChunkCount, Manifest.Valid, Run;
    var n := job.ChunkCount();
    HasChunks(job);
    var straight := Straight(plain, n - 1);
    StraightRun(job, plain, n - 1);
    StraightReads(plain, n - 1);
    QueryEmptiesTask(job, plain, Run(job, straight), n);
    var received := seq(n, (i: nat) => i);
    var file := Some(plain);
    RunAdds(job, straight, StoreChunk(n - 1));
    RunAdds(job, straight + [StoreChunk(n - 1)], PutFinished(TransientFailure, file));
    RunAdds(job, straight + [StoreChunk(n - 1)] + [PutFinished(TransientFailure, file)], UploadQueried(true, received, false, file));
    var es := LastReplyLost(plain, n);
    assert ReadsOnly(es, plain);
  }

  lemma HasChunks(job: Job)
    requires job.Valid()
    ensures job.ChunkCount() > 0
  {
  }

  lemma RunAdds(job: Job, es: seq<Event>, e: Event)
    requires job.Valid()
    ensures Run(job, es + [e]) == Step(job, Run(job, es), e)
  {
    hide Step;
    assert (es + [e])[..|es|] == es;
  }

  // ---- Exactly the others can still be completed ----

  /** The chunk in flight is the last one sent. */
  ghost predicate ActiveIsLast(u: Upload) {
    u.active.Some? ==> u.issued != [] && u.issued[|u.issued| - 1].index == u.active.value
  }

  lemma {:induction false} RunKeepsActiveLast(job: Job, es: seq<Event>)
    requires job.Valid()
    ensures ActiveIsLast(Run(job, es).u)
  {
    hide Step, ActiveIsLast;
    if es != [] {
      RunKeepsActiveLast(job, es[..|es| - 1]);
      StepKeepsActiveLast(job, Run(job, es[..|es| - 1]), es[|es| - 1]);
    } else {
      StartsWithoutActive(job);
    }
  }

  lemma StartsWithoutActive(job: Job)
    requires job.Valid()
    ensures ActiveIsLast(Start(job)) && Start(job).completions == 0
  {
  }

  lemma StepKeepsActiveLast(job: Job, w: World, e: Event)
    requires job.Valid() && ActiveIsLast(w.u)
    ensures ActiveIsLast(Step(job, w, e).u)
  {
    hide Job.SealFrom, Assembled, Manifest.ChunkCount, Manifest.Valid;
  }

  /** The chunk in flight is stored, and the server says so. */
  lemma AcceptActive(job: Job, plain: Bytes, w: World)
    requires HashedFrom(job, plain) && w.u.status == Running && w.u.active.Some?
    requires ActiveIsLast(w.u) && InRange(job, w.u)
    ensures var t := Step(job, Step(job, w, StoreChunk(|w.u.issued| - 1)), PutFinished(Accepted, Some(plain)));
            var left := w.u.remaining - {w.u.active.value};
            && t.u.status == Running && t.u.remaining == left
            && (if left == {} then t.u.active.None? && t.u.completions == w.u.completions + 1
                else t.u.active.Some? && t.u.active.value in left && t.u.completions == w.u.completions)
  {
    var left := w.u.remaining - {w.u.active.value};
    SendsSomething(job, plain, w.u.(active := None, attempts := 0, remaining := left));
    StoreLast(job, w);
    AcceptStored(job, Step(job, w, StoreChunk(|w.u.issued| - 1)), Some(plain));
    hide HashedFrom, SendNext, Step, InRange, ActiveIsLast, Manifest.ChunkCount, Manifest.Valid;
  }

  lemma StoreLast(job: Job, w: World)
    requires job.Valid() && w.u.active.Some? && ActiveIsLast(w.u)
    ensures var t := Step(job, w, StoreChunk(|w.u.issued| - 1)); t.u == w.u && w.u.active.value in t.stored
  {
    hide Manifest.ChunkCount, Manifest.Valid;
  }

  lemma AcceptStored(job: Job, w: World, file: Option<Bytes>)
    requires job.Valid() && w.u.status == Running && w.u.active.Some? && w.u.active.value in w.stored
    ensures Step(job, w, PutFinished(Accepted, file)).u
         == SendNext(job, w.u.(active := None, attempts := 0, remaining := w.u.remaining - {w.u.active.value}), file)
  {
    hide SendNext, Assembled, Manifest.ChunkCount, Manifest.Valid;
  }

  lemma SendsSomething(job: Job, plain: Bytes, u: Upload)
    requires HashedFrom(job, plain) && u.active.None? && u.remaining <= Range(job.ChunkCount())
    ensures var v := SendNext(job, u, Some(plain));
            if u.remaining == {} then v == u.(completions := u.completions + 1)
            else v == u.(active := v.active, issued := v.issued) && v.active.Some? && v.active.value in u.remaining
  {
    if u.remaining != {} {
      SealedAgain(job, plain, Least(u.remaining));
      hide HashedFrom, Job.SealFrom, Manifest.ChunkCount, Manifest.Valid;
    }
  }

  /** How far a task is from having everything accepted. */
  ghost function Rank(u: Upload): nat {
    if u.completions > 0 then 0 else if u.active.Some? && u.active.value in u.remaining then 1 else 2
  }

  /** A task that is not stranded goes on to its end when nothing else goes wrong. */
  lemma {:induction false} CanFinish(job: Job, plain: Bytes, es: seq<Event>) returns (later: seq<Event>)
    requires job.Valid() && HashedFrom(job, plain) && ReadsOnly(es, plain)
    requires Run(job, es).u.status == Running && !Stranded(Run(job, es).u)
    ensures ReadsOnly(later, plain) && Run(job, es + later).u.status == SentTask
    decreases |Run(job, es).u.remaining|, Rank(Run(job, es).u)
  {
    hide Run, Step, HashedFrom, Manifest.ChunkCount, Manifest.Valid, Assembled;
    var w := Run(job, es);
    RunKeepsActiveLast(job, es);
    RunInRange(job, es);
    var first: seq<Event>;
    if w.u.completions > 0 {
      CompletionSucceeds(job, plain, es);
      later := [AssembleObject, UploadCompleted(true)];
      RunTwo(job, es, AssembleObject, UploadCompleted(true));
      Completes(job, w);
      return;
    } else if w.u.active.Some? {
      AcceptActive(job, plain, w);
      first := [StoreChunk(|w.u.issued| - 1), PutFinished(Accepted, Some(plain))];
      RunTwo(job, es, first[0], first[1]);
      if w.u.active.value in w.u.remaining {
        SubsetSize(w.u.remaining - {w.u.active.value}, w.u.remaining);
      } else {
        assert w.u.remaining - {w.u.active.value} == w.u.remaining;
      }
    } else {
      Pumped(job, plain, w);
      first := [PumpNext(false, Some(plain))];
      RunAdds(job, es, first[0]);
    }
    assert ReadsOnly(es + first, plain);
    var rest := CanFinish(job, plain, es + first);
    later := first + rest;
    assert es + later == es + first + rest;
    assert ReadsOnly(later, plain);
  }

  lemma RunInRange(job: Job, es: seq<Event>)
    requires job.Valid()
    ensures InRange(job, Run(job, es).u)
  {
    RunDelivers(job, es);
  }

  lemma RunTwo(job: Job, es: seq<Event>, a: Event, b: Event)
    requires job.Valid()
    ensures Run(job, es + [a, b]) == Step(job, Step(job, Run(job, es), a), b)
  {
    hide Run, Step;
    RunAdds(job, es, a);
    RunAdds(job, es + [a], b);
    assert es + [a] + [b] == es + [a, b];
  }

  lemma Completes(job: Job, w: World)
    requires job.Valid() && w.u.status == Running && w.u.completions > 0 && Assembled(job, w.stored).Some?
    ensures var t := Step(job, Step(job, w, AssembleObject), UploadCompleted(true));
            t.u.status == SentTask && t.blob == if w.blob.Some? then w.blob else Assembled(job, w.stored)
  {
    hide Assembled, Manifest.ChunkCount, Manifest.Valid;
  }

  lemma Pumped(job: Job, plain: Bytes, w: World)
    requires HashedFrom(job, plain) && w.u.status == Running && w.u.active.None? && w.u.remaining != {} && InRange(job, w.u)
    ensures var t := Step(job, w, PumpNext(false, Some(plain)));
            && t.u.status == Running && t.u.remaining == w.u.remaining && t.u.completions == w.u.completions
            && t.u.active.Some? && t.u.active.value in t.u.remaining
  {
    SendsSomething(job, plain, w.u);
    hide HashedFrom, SendNext, Manifest.ChunkCount, Manifest.Valid;
  }

  /** Of the running tasks over an undisturbed file exactly the stranded ones can never be completed. */
  lemma CompletableExactlyWhen(job: Job, plain: Bytes, es: seq<Event>)
    requires job.Valid() && HashedFrom(job, plain) && ReadsOnly(es, plain) && Run(job, es).u.status == Running
    ensures (exists later :: ReadsOnly(later, plain) && Run(job, es + later).u.status == SentTask)
       <==> !Stranded(Run(job, es).u)
  {
    if Stranded(Run(job, es).u) {
      forall later
        ensures Run(job, es + later).u.status != SentTask
      {
        StrandedForever(job, es, later);
      }
    } else {
      var later := CanFinish(job, plain, es);
    }
  }

  // ---- When completion is requested ----

  /** The server accepts the last chunk outstanding. */
  predicate LastAccepted(w: World, e: Event) {
    && w.u.status == Running && Enabled(w, e)
    && e.PutFinished? && e.result == Accepted && w.u.remaining <= {w.u.active.value}
  }

  /** A run has requested completion exactly if the server's answer to a PUT, not a query, left nothing to send. */
  lemma {:induction false} CompletionRequestedWhen(job: Job, es: seq<Event>)
    requires job.Valid()
    ensures Run(job, es).u.completions > 0 <==> exists k: nat :: k < |es| && LastAccepted(Run(job, es[..k]), es[k])
  {
    hide Run, Step, LastAccepted;
    if es == [] {
      NothingRun(job);
    } else {
      var last := |es| - 1;
      CompletionRequestedWhen(job, es[..last]);
      forall k: nat | k < last
        ensures es[..last][..k] == es[..k]
      {
      }
      StepCompletes(job, Run(job, es[..last]), es[last]);
      RunStep(job, es, last);
      assert es[..last + 1] == es;
    }
  }

  lemma NothingRun(job: Job)
    requires job.Valid()
    ensures Run(job, []).u.completions == 0
  {
  }

  lemma StepCompletes(job: Job, w: World, e: Event)
    requires job.Valid()
    ensures Step(job, w, e).u.completions > 0 <==> w.u.completions > 0 || LastAccepted(w, e)
  {
    hide Job.SealFrom, Assembled, Manifest.ChunkCount, Manifest.Valid;
  }

  // ---- The task object ----

  class UploadTask {
    const job: Job
    var remainingChunks: set<nat>
    var activeIndex: int
    var attempts: nat
    var recoveryRounds: nat
    var status: Status
    var issued: seq<Put>
    var queries: nat
    var completions: nat

    constructor (job: Job)
      requires job.Valid()
      ensures this.job == job && Valid() && View() == Start(job)
    {
      hide CeilDiv, Manifest.ChunkCount, Manifest.Valid;
      this.job := job;
      activeIndex, attempts, recoveryRounds := -1, 0, 0;
      status, remainingChunks := Running, {};
      issued, queries, completions := [], 0, 0;
      new;
      FillRemaining();
    }

    /** All chunks are still to be sent. */
    method FillRemaining()
      requires job.Valid()
      modifies this`remainingChunks
      ensures remainingChunks == Range(job.ChunkCount())
    {
      hide CeilDiv, Manifest.Valid, Manifest.ChunkCount;
      var all: set<nat> := {};
      for i := 0 to job.ChunkCount()
        invariant all == Range(i)
      {
        all := all + {i};
      }
      remainingChunks := all;
    }

    /** Chunks are of the layout, and the one in flight is the last one sent. */
    ghost predicate Valid()
      reads this
    {
      && job.Valid() && -1 <= activeIndex
      && remainingChunks <= Range(job.ChunkCount())
      && (forall put <- issued :: put.index < job.ChunkCount())
      && (activeIndex >= 0 ==> issued != [] && issued[|issued| - 1].index == activeIndex)
    }

    ghost function View(): Upload
      reads this
      requires Valid()
    {
      Upload(remainingChunks, if activeIndex < 0 then None else Some(activeIndex),
             attempts, recoveryRounds, status, issued, queries, completions)
    }

    /** The lowest remaining chunk, or -1. */
    method NextChunk() returns (index: int)
      ensures remainingChunks == {} ==> index == -1
      ensures remainingChunks != {} ==> index == Least(remainingChunks)
    {
      index := -1;
      var candidates := remainingChunks;
      while candidates != {}
        invariant candidates <= remainingChunks
        invariant index == -1 <==> candidates == remainingChunks
        invariant index != -1 ==> index in remainingChunks
        invariant forall x :: x in remainingChunks && x !in candidates ==> index <= x
        decreases |candidates|
      {
        var candidate :| candidate in candidates;
        if index < 0 || candidate < index {
          index := candidate;
        }
        candidates := candidates - {candidate};
      }
    }

    method PumpUpload(file: Option<Bytes>)
      requires Valid()
      modifies this
      ensures Valid() && View() == SendNext(job, old(View()), file)
    {
      hide Job.SealFrom, Range, Least, IsLeast, Manifest.ChunkCount, Manifest.Valid;
      if activeIndex >= 0 {
        return;
      }
      var index := NextChunk();
      LeastIsMember(remainingChunks);
      if index < 0 {
        completions := completions + 1;
        return;
      }
      var body := job.SealFrom(file, index);
      match body {
        case None =>
          status := FailedTask;
        case Some(bytes) =>
          activeIndex := index;
          issued := issued + [Put(index, bytes)];
      }
    }

    /** This task's part in a turn of the scheduler. */
    method PumpNext(busy: bool, file: Option<Bytes>)
      requires Valid()
      modifies this
      ensures Valid() && View() == Pump(job, old(View()), busy, file)
    {
      if !busy && remainingChunks != {} {
        PumpUpload(file);
      }
    }

    method OnPutFinished(result: PutResult, file: Option<Bytes>)
      requires Valid() && activeIndex >= 0
      modifies this
      ensures Valid() && View() == FinishPut(job, old(View()), result, file)
    {
      hide SendNext, Range, Manifest.ChunkCount, Manifest.Valid;
      var index: nat := activeIndex;
      activeIndex := -1;
      if result == Accepted {
        attempts := 0;
        remainingChunks := remainingChunks - {index};
        PumpUpload(file);
        return;
      }
      attempts := attempts + 1;
      recoveryRounds := recoveryRounds + 1;
      if result == TransientFailure && attempts <= MAX_CHUNK_ATTEMPTS && recoveryRounds <= MAX_RECOVERY_ROUNDS {
        queries := queries + 1;
        return;
      }
      status := FailedTask;
    }

    /** Strikes off the chunks the server has. */
    method RemoveReceived(received: seq<nat>)
      modifies this`remainingChunks
      ensures remainingChunks == old(remainingChunks) - set i | i in received
    {
      for k := 0 to |received|
        invariant remainingChunks == old(remainingChunks) - set i | i in received[..k]
      {
        remainingChunks := remainingChunks - {received[k]};
      }
      assert received[..|received|] == received;
    }

    method OnUploadQueried(ok: bool, received: seq<nat>, busy: bool, file: Option<Bytes>)
      requires Valid()
      modifies this
      ensures Valid() && View() == FinishQuery(job, old(View()), ok, received, busy, file)
    {
      hide Pump, Range, Manifest.ChunkCount, Manifest.Valid;
      if ok {
        RemoveReceived(received);
        PumpNext(busy, file);
        return;
      }
      if attempts > MAX_CHUNK_ATTEMPTS || recoveryRounds > MAX_RECOVERY_ROUNDS {
        status := FailedTask;
        return;
      }
      PumpNext(busy, file);
    }

    method OnUploadCompleted(ok: bool)
      requires Valid()
      modifies this
      ensures Valid() && View() == TaskStep(job, old(View()), UploadCompleted(ok))
    {
      status := if ok then SentTask else FailedTask;
    }
  }
}
