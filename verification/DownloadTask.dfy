/**
 One download task: chunk-wise range requests into a temporary file, retries, renewal of an
 expired ticket and resumption, and the final check before the file enters the cache.

 `Download` is the task's state with its files as a value, `Step` what each callback does, and
 the class performs the same steps in place. `Run` covers every order of replies, also replies
 with wrong bytes and other parties removing or changing the task's files.
 */
module DownloadTask {
  import opened CachedFile
  import opened FileCrypto
  import opened FileProtocol
  import FileHttpService
  import opened Wrappers

  const MAX_CHUNK_ATTEMPTS := 3
  const MAX_TICKET_RENEWALS := 3

  /** What the manifest says of the ciphertext. */
  datatype Spec = Spec(manifest: Manifest, sha: string, digest: Bytes -> string) {

    predicate Valid() {
      manifest.Valid()
    }

    function ChunkCount(): nat
      requires Valid()
    {
      manifest.ChunkCount()
    }

    function Offset(i: nat): nat
      requires Valid()
    {
      MulMonotone(0, i, manifest.chunkSize);
      i * manifest.chunkSize
    }

    function ChunkBytes(i: nat): int {
      ExpectedChunkBytes(manifest.cipherSize, manifest.chunkSize, manifest.ChunkCount(), i)
    }

    /** Chunk i fills the object from its own offset to the next, or to the end. */
    lemma ChunkPlace(i: nat)
      requires Valid() && i < ChunkCount()
      ensures ChunkBytes(i) > 0
      ensures Offset(i) + ChunkBytes(i) == Min(Offset(i + 1), manifest.cipherSize) > Offset(i)
      ensures i == ChunkCount() - 1 <==> manifest.cipherSize <= Offset(i + 1)
      ensures Offset(0) == 0
    {
      LayoutPartitions(manifest.cipherSize, manifest.chunkSize, ChunkCount(), i);
    }
  }

  datatype Status = Running | Failed | Available

  datatype Download = Download(
    ticket: bool,         // a ticket is held
    asked: bool,          // a ticket request is outstanding
    named: bool,          // the temporary file has been given a name
    index: nat,
    bytesDone: nat,
    attempts: nat,
    renewals: nat,
    active: Option<nat>,
    status: Status,
    temp: Option<Bytes>,
    cache: Option<Bytes>, // the cache entry for this digest
    installed: Option<Bytes>,
    requests: seq<nat>    // chunk indexes of the GETs sent, in order
  )

  /** Local conditions a callback may meet. */
  datatype Env = Env(busy: bool, manifestKnown: bool, readable: bool, renamable: bool)

  datatype Reply = Data(bytes: Bytes) | Unauthorized | TransientFailure | PermanentFailure
  datatype Write = Whole | CannotOpen | Short(count: nat)

  datatype Event =
    | Ticket(ok: bool, matches: bool, rootOk: bool, env: Env)
    | PumpNext(env: Env)
    | GetFinished(reply: Reply, write: Write, env: Env)
    | TempDisturbed(left: Option<Bytes>)    // another party changes the temporary file
    | CacheCleared
    | OtherInstalled(content: Bytes)        // another task finishes the same file

  function Start(s: Spec, cache: Option<Bytes>): Download {
    var cached := cache.Some? && |cache.value| == s.manifest.cipherSize;
    Download(false, !cached, false, 0, 0, 0, 0, None, if cached then Available else Running, None, cache, None, [])
  }

  /** Failing a task removes its temporary file. */
  function Fail(d: Download): Download {
    d.(status := Failed, temp := None)
  }

  /** The checks between the last chunk and the cache. */
  function Finalize(s: Spec, d: Download, env: Env): (r: Download)
    ensures r.status in {Failed, Available} && r.temp.None?
    ensures r.requests == d.requests
  {
    match d.temp
    case None => Fail(d)
    case Some(content) =>
      if |content| != s.manifest.cipherSize || !env.readable || s.digest(content) != s.sha then Fail(d)
      else if d.cache.Some? then d.(temp := None, named := false, status := Available)
      else if !env.renamable then Fail(d)
      else d.(temp := None, named := false, cache := Some(content), installed := Some(content), status := Available)
  }

  /** Requests the next chunk, or finishes when there is none. */
  function Fetch(s: Spec, d: Download, env: Env): Download
    requires s.Valid()
  {
    if d.active.Some? || !d.named then d
    else if d.index >= s.ChunkCount() then Finalize(s, d, env)
    else if !env.manifestKnown then Fail(d)
    else d.(active := Some(d.index), requests := d.requests + [d.index])
  }

  function Pump(s: Spec, d: Download, env: Env): Download
    requires s.Valid()
  {
    if env.busy || !d.ticket || !d.named then d else Fetch(s, d, env)
  }

  /** Can the chunks in the temporary file be kept? */
  predicate Resumable(d: Download) {
    d.named && d.index > 0 && d.temp.Some? && |d.temp.value| == d.bytesDone
  }

  function OnTicket(s: Spec, d: Download, ok: bool, matches: bool, rootOk: bool, env: Env): Download
    requires s.Valid()
  {
    var answered := d.(asked := false);
    if !ok || !matches || !rootOk then Fail(answered)
    else
      var placed := if Resumable(d) then answered
                    else answered.(named := true, temp := None, index := 0, bytesDone := 0);
      Pump(s, placed.(ticket := true, attempts := 0), env)
  }

  /** An expired ticket is renewed, a transient failure retried, each within its budget. */
  function OnRefusal(s: Spec, idle: Download, reply: Reply, env: Env): Download
    requires s.Valid()
  {
    var counted := idle.(attempts := idle.attempts + 1);
    if reply == Unauthorized && idle.renewals < MAX_TICKET_RENEWALS && env.manifestKnown then
      counted.(renewals := idle.renewals + 1, attempts := 0, ticket := false, asked := true)
    else if reply == TransientFailure && counted.attempts <= MAX_CHUNK_ATTEMPTS then Fetch(s, counted, env)
    else Fail(counted)
  }

  function OnGet(s: Spec, d: Download, reply: Reply, write: Write, env: Env): Download
    requires s.Valid() && d.active.Some?
  {
    var idle := d.(active := None);
    if !reply.Data? then OnRefusal(s, idle, reply, env)
    else if |reply.bytes| != s.ChunkBytes(d.active.value) || write != Whole then Fail(idle)
    else
      var before := if d.temp.Some? then d.temp.value else [];
      Fetch(s, idle.(temp := Some(before + reply.bytes), attempts := 0, renewals := 0,
                     bytesDone := d.bytesDone + |reply.bytes|, index := d.index + 1), env)
  }

  predicate Enabled(s: Spec, d: Download, e: Event) {
    match e
    case Ticket(_, _, _, _) => d.asked
    case PumpNext(_) => true
    case GetFinished(_, _, _) => d.active.Some?
    case TempDisturbed(_) => d.named
    case CacheCleared => true
    case OtherInstalled(content) => d.cache.None? && s.digest(content) == s.sha
  }

  function Step(s: Spec, d: Download, e: Event): Download
    requires s.Valid()
  {
    if !Enabled(s, d, e) then d
    else match e
      case TempDisturbed(left) => d.(temp := left)
      case CacheCleared => d.(cache := None)
      case OtherInstalled(content) => d.(cache := Some(content))
      case _ => if d.status != Running then d else TaskStep(s, d, e)
  }

  function TaskStep(s: Spec, d: Download, e: Event): Download
    requires s.Valid() && (e.GetFinished? ==> d.active.Some?)
  {
    match e
    case Ticket(ok, matches, rootOk, env) => OnTicket(s, d, ok, matches, rootOk, env)
    case PumpNext(env) => Pump(s, d, env)
    case GetFinished(reply, write, env) => OnGet(s, d, reply, write, env)
    case _ => d
  }

  function Run(s: Spec, cache: Option<Bytes>, es: seq<Event>): Download
    requires s.Valid()
  {
    if es == [] then Start(s, cache) else Step(s, Run(s, cache, es[..|es| - 1]), es[|es| - 1])
  }

  // ---- Every run: only checked content enters the cache ----

  ghost predicate Checked(s: Spec, d: Download) {
    && (d.installed.Some? ==> s.digest(d.installed.value) == s.sha && |d.installed.value| == s.manifest.cipherSize)
    && (d.cache.Some? ==> s.digest(d.cache.value) == s.sha)
  }

  lemma FetchKeepsChecked(s: Spec, d: Download, env: Env)
    requires s.Valid() && Checked(s, d)
    ensures Checked(s, Fetch(s, d, env))
  {
  }

  lemma TicketKeepsChecked(s: Spec, d: Download, ok: bool, matches: bool, rootOk: bool, env: Env)
    requires s.Valid() && Checked(s, d)
    ensures Checked(s, OnTicket(s, d, ok, matches, rootOk, env))
  {
    hide ExpectedChunkBytes, Manifest.ChunkCount, Manifest.Valid, Fetch;
    var answered := d.(asked := false);
    var restart := answered.(named := true, temp := None, index := 0, bytesDone := 0);
    FetchKeepsChecked(s, answered.(ticket := true, attempts := 0), env);
    FetchKeepsChecked(s, restart.(ticket := true, attempts := 0), env);
  }

  lemma GetKeepsChecked(s: Spec, d: Download, reply: Reply, write: Write, env: Env)
    requires s.Valid() && Checked(s, d) && d.active.Some?
    ensures Checked(s, OnGet(s, d, reply, write, env))
  {
    hide ExpectedChunkBytes, Manifest.ChunkCount, Manifest.Valid, Fetch;
    var idle := d.(active := None);
    if reply.Data? {
      var before := if d.temp.Some? then d.temp.value else [];
      FetchKeepsChecked(s, idle.(temp := Some(before + reply.bytes), attempts := 0, renewals := 0,
                                 bytesDone := d.bytesDone + |reply.bytes|, index := d.index + 1), env);
    } else {
      FetchKeepsChecked(s, idle.(attempts := d.attempts + 1), env);
    }
  }

  lemma StepKeepsChecked(s: Spec, d: Download, e: Event)
    requires s.Valid() && Checked(s, d)
    ensures Checked(s, Step(s, d, e))
  {
    hide ExpectedChunkBytes, Manifest.ChunkCount, Manifest.Valid, Fetch, OnTicket, OnGet;
    if Enabled(s, d, e) && d.status == Running {
      match e {
        case Ticket(ok, matches, rootOk, env) => TicketKeepsChecked(s, d, ok, matches, rootOk, env);
        case PumpNext(env) => FetchKeepsChecked(s, d, env);
        case GetFinished(reply, write, env) => GetKeepsChecked(s, d, reply, write, env);
        case TempDisturbed(_) =>
        case CacheCleared =>
        case OtherInstalled(_) =>
      }
    }
  }

  /**
   Whatever bytes arrive and whoever touches the files: what this task puts into the cache has
   the manifest's digest and length, and an entry that was sound stays so.
   */
  lemma {:induction false} OnlyCheckedContentInstalled(s: Spec, cache: Option<Bytes>, es: seq<Event>)
    requires s.Valid() && (cache.Some? ==> s.digest(cache.value) == s.sha)
    ensures Checked(s, Run(s, cache, es))
  {
    if es != [] {
      OnlyCheckedContentInstalled(s, cache, es[..|es| - 1]);
      hide Step, Checked;
      StepKeepsChecked(s, Run(s, cache, es[..|es| - 1]), es[|es| - 1]);
    }
  }

  // ---- Undisturbed runs ----

  predicate Undisturbed(es: seq<Event>) {
    forall e <- es :: !e.TempDisturbed?
  }

  /** The bookkeeping agrees with the temporary file, and requests come in the order of the chunks. */
  ghost predicate Consistent(s: Spec, d: Download)
    requires s.Valid()
  {
    && (d.status != Running ==> d.temp.None?)
    && (d.status == Running ==>
          && d.index < s.ChunkCount()
          && d.bytesDone == Min(s.Offset(d.index), s.manifest.cipherSize)
          && (if d.index == 0 then d.temp.None? else d.temp.Some? && |d.temp.value| == d.bytesDone)
          && (d.index > 0 || d.ticket || d.active.Some? ==> d.named)
          && (d.active.Some? ==> d.active.value == d.index && d.ticket)
          && (d.asked ==> !d.ticket && d.attempts == 0))
  }

  lemma StepKeepsConsistent(s: Spec, d: Download, e: Event)
    requires s.Valid() && Consistent(s, d) && !e.TempDisturbed?
    ensures Consistent(s, Step(s, d, e))
  {
    if d.status == Running {
      s.ChunkPlace(d.index);
    }
    s.ChunkPlace(0);
    hide Spec.Offset, Spec.ChunkBytes, Manifest.ChunkCount, Manifest.Valid, Finalize;
  }

  lemma {:induction false} UndisturbedConsistent(s: Spec, cache: Option<Bytes>, es: seq<Event>)
    requires s.Valid() && Undisturbed(es)
    ensures Consistent(s, Run(s, cache, es))
  {
    if es != [] {
      assert es[|es| - 1] in es;
      UndisturbedConsistent(s, cache, es[..|es| - 1]);
      StepKeepsConsistent(s, Run(s, cache, es[..|es| - 1]), es[|es| - 1]);
    }
  }

  // ---- Budgets ----

  /** Requests a chunk may have cost by now: up to MAX_CHUNK_ATTEMPTS + 1 = 4 in every ticket round. */
  function Spent(d: Download): nat {
    4 * d.renewals + d.attempts + if d.active.Some? then 1 else 0
  }

  function Times(requests: seq<nat>, k: nat): nat {
    if requests == [] then 0
    else Times(requests[..|requests| - 1], k) + if requests[|requests| - 1] == k then 1 else 0
  }

  /** 16 requests per chunk: 4 attempts in each of MAX_TICKET_RENEWALS + 1 ticket rounds. */
  ghost predicate Budgeted(s: Spec, d: Download)
    requires s.Valid()
  {
    && (forall k: nat :: Times(d.requests, k) <= 16)
    && |d.requests| <= 16 * s.ChunkCount()
    && (d.status == Running ==>
          && d.attempts <= MAX_CHUNK_ATTEMPTS && d.renewals <= MAX_TICKET_RENEWALS
          && |d.requests| <= 16 * d.index + Spent(d)
          && Times(d.requests, d.index) <= Spent(d)
          && forall k: nat :: k > d.index ==> Times(d.requests, k) == 0)
  }

  lemma TimesStep(requests: seq<nat>, x: nat, k: nat)
    ensures Times(requests + [x], k) == Times(requests, k) + if k == x then 1 else 0
  {
    assert (requests + [x])[..|requests|] == requests;
  }

  /** Requesting one more chunk, when what has been spent leaves room for it. */
  lemma FetchKeepsBudget(s: Spec, d: Download, env: Env)
    requires s.Valid() && d.status == Running && Budgeted(s, d)
    ensures Budgeted(s, Fetch(s, d, env))
  {
    hide Finalize, Manifest.ChunkCount, Manifest.Valid, Times;
    forall k: nat
      ensures Times(d.requests + [d.index], k) == Times(d.requests, k) + if k == d.index then 1 else 0
    {
      TimesStep(d.requests, d.index, k);
    }
  }

  lemma GetKeepsBudget(s: Spec, d: Download, reply: Reply, write: Write, env: Env)
    requires s.Valid() && Consistent(s, d) && Budgeted(s, d) && d.active.Some? && d.status == Running
    ensures Budgeted(s, OnGet(s, d, reply, write, env))
  {
    hide Spec.ChunkBytes, Spec.Offset, Manifest.ChunkCount, Manifest.Valid, Fetch, Times;
    var idle := d.(active := None);
    if reply == TransientFailure && d.attempts < MAX_CHUNK_ATTEMPTS {
      FetchKeepsBudget(s, idle.(attempts := d.attempts + 1), env);
    }
    if reply.Data? {
      var before := if d.temp.Some? then d.temp.value else [];
      FetchKeepsBudget(s, idle.(temp := Some(before + reply.bytes), attempts := 0, renewals := 0,
                                bytesDone := d.bytesDone + |reply.bytes|, index := d.index + 1), env);
    }
  }

  lemma StepKeepsBudget(s: Spec, d: Download, e: Event)
    requires s.Valid() && Consistent(s, d) && !e.TempDisturbed? && Budgeted(s, d)
    ensures Budgeted(s, Step(s, d, e))
  {
    hide Spec.ChunkBytes, Spec.Offset, Manifest.ChunkCount, Manifest.Valid, Fetch, Times;
    if Enabled(s, d, e) && d.status == Running {
      match e {
        case Ticket(_, _, _, env) =>
          var answered := d.(asked := false);
          var restart := answered.(named := true, temp := None, index := 0, bytesDone := 0);
          assert !Resumable(d) ==> d.index == 0;
          FetchKeepsBudget(s, answered.(ticket := true, attempts := 0), env);
          if !Resumable(d) {
            FetchKeepsBudget(s, restart.(ticket := true, attempts := 0), env);
          }
        case PumpNext(env) =>
          FetchKeepsBudget(s, d, env);
        case GetFinished(reply, write, env) =>
          GetKeepsBudget(s, d, reply, write, env);
          hide OnGet;
        case _ =>
      }
    }
  }

  lemma {:induction false} RunKeepsBudget(s: Spec, cache: Option<Bytes>, es: seq<Event>)
    requires s.Valid() && Undisturbed(es)
    ensures Budgeted(s, Run(s, cache, es))
  {
    if es != [] {
      assert es[|es| - 1] in es;
      RunKeepsBudget(s, cache, es[..|es| - 1]);
      UndisturbedConsistent(s, cache, es[..|es| - 1]);
      hide Step, Budgeted, Consistent;
      StepKeepsBudget(s, Run(s, cache, es[..|es| - 1]), es[|es| - 1]);
    }
  }

  /** An undisturbed download asks for no chunk more than 16 times, whatever the replies. */
  lemma DownloadBudgets(s: Spec, cache: Option<Bytes>, es: seq<Event>)
    requires s.Valid() && Undisturbed(es)
    ensures forall k: nat :: Times(Run(s, cache, es).requests, k) <= 16
    ensures |Run(s, cache, es).requests| <= 16 * s.ChunkCount()
  {
    RunKeepsBudget(s, cache, es);
    hide Run, Times, Manifest.ChunkCount, Manifest.Valid;
  }

  // ---- Downloads of a genuine object ----

  /** `bytes` is the body of the server's answer to the request for chunk i of `blob`. */
  predicate ServerSent(s: Spec, blob: Bytes, i: nat, bytes: Bytes)
    requires s.Valid() && i < s.ChunkCount()
  {
    s.ChunkPlace(i);
    match FileHttpService.Answer(Some(blob), FileHttpService.PrintRange(s.Offset(i), s.ChunkBytes(i)))
    case Full(data) => bytes == data
    case Partial(data, _, _) => bytes == data
    case _ => false
  }

  predicate GenuineReply(s: Spec, blob: Bytes, d: Download, e: Event)
    requires s.Valid()
  {
    e.GetFinished? && e.reply.Data? && d.active.Some? && d.active.value < s.ChunkCount() ==>
      ServerSent(s, blob, d.active.value, e.reply.bytes)
  }

  /** Every reply with data, at its point of the run, comes from a server holding `blob`. */
  predicate GenuineRun(s: Spec, cache: Option<Bytes>, blob: Bytes, es: seq<Event>)
    requires s.Valid()
  {
    es == [] || (&& GenuineRun(s, cache, blob, es[..|es| - 1])
                 && GenuineReply(s, blob, Run(s, cache, es[..|es| - 1]), es[|es| - 1]))
  }

  lemma ServerSentChunk(s: Spec, blob: Bytes, i: nat, bytes: Bytes)
    requires s.Valid() && i < s.ChunkCount() && |blob| == s.manifest.cipherSize
    requires ServerSent(s, blob, i, bytes)
    ensures s.Offset(i) <= s.Offset(i) + s.ChunkBytes(i) <= |blob|
    ensures bytes == blob[s.Offset(i)..s.Offset(i) + s.ChunkBytes(i)]
  {
    s.ChunkPlace(i);
    FileHttpService.ChunkRequestAnswered(blob, s.manifest.chunkSize, s.ChunkCount(), i);
    hide FileHttpService.Answer, FileHttpService.PrintRange, ExpectedChunkBytes, Manifest.ChunkCount;
  }

  /** The temporary file is the beginning of the object. */
  ghost predicate HoldsPrefix(s: Spec, blob: Bytes, d: Download)
    requires s.Valid()
  {
    && (d.status == Running && d.index > 0 ==> d.bytesDone <= |blob| && d.temp == Some(blob[..d.bytesDone]))
    && (d.installed.Some? ==> d.installed.value == blob)
  }

  lemma FetchKeepsPrefix(s: Spec, blob: Bytes, d: Download, env: Env)
    requires s.Valid() && HoldsPrefix(s, blob, d) && d.status == Running && |blob| == s.manifest.cipherSize
    ensures HoldsPrefix(s, blob, Fetch(s, d, env))
  {
  }

  lemma StepKeepsPrefix(s: Spec, blob: Bytes, d: Download, e: Event)
    requires s.Valid() && |blob| == s.manifest.cipherSize
    requires Consistent(s, d) && !e.TempDisturbed? && HoldsPrefix(s, blob, d)
    requires GenuineReply(s, blob, d, e)
    ensures HoldsPrefix(s, blob, Step(s, d, e))
  {
    hide Fetch, Spec.Offset, Spec.ChunkBytes, Manifest.ChunkCount, Manifest.Valid, ServerSent;
    if Enabled(s, d, e) && d.status == Running {
      match e {
        case Ticket(_, _, _, env) =>
          var answered := d.(asked := false);
          var restart := answered.(named := true, temp := None, index := 0, bytesDone := 0);
          FetchKeepsPrefix(s, blob, answered.(ticket := true, attempts := 0), env);
          FetchKeepsPrefix(s, blob, restart.(ticket := true, attempts := 0), env);
        case PumpNext(env) =>
          FetchKeepsPrefix(s, blob, d, env);
        case GetFinished(reply, write, env) =>
          var idle := d.(active := None);
          FetchKeepsPrefix(s, blob, idle.(attempts := d.attempts + 1), env);
          if reply.Data? {
            ServerSentChunk(s, blob, d.index, reply.bytes);
            s.ChunkPlace(d.index);
            s.ChunkPlace(0);
            var before := if d.temp.Some? then d.temp.value else [];
            assert before == blob[..d.bytesDone] && d.bytesDone == s.Offset(d.index);
            assert before + reply.bytes == blob[..d.bytesDone + |reply.bytes|];
            FetchKeepsPrefix(s, blob, idle.(temp := Some(before + reply.bytes), attempts := 0, renewals := 0,
                                            bytesDone := d.bytesDone + |reply.bytes|, index := d.index + 1), env);
          }
        case _ =>
      }
    }
  }

  /** Across retries, renewals and resumptions the temporary file is always the object up to bytesDone. */
  lemma {:induction false} TempIsPrefix(s: Spec, cache: Option<Bytes>, blob: Bytes, es: seq<Event>)
    requires s.Valid() && |blob| == s.manifest.cipherSize
    requires Undisturbed(es) && GenuineRun(s, cache, blob, es)
    ensures var d := Run(s, cache, es);
            d.status == Running ==>
              && d.bytesDone == Min(s.Offset(d.index), |blob|)
              && d.temp == if d.index == 0 then None else Some(blob[..d.bytesDone])
    ensures HoldsPrefix(s, blob, Run(s, cache, es))
  {
    UndisturbedConsistent(s, cache, es);
    if es != [] {
      var front := es[..|es| - 1];
      assert es[|es| - 1] in es;
      TempIsPrefix(s, cache, blob, front);
      UndisturbedConsistent(s, cache, front);
      StepKeepsPrefix(s, blob, Run(s, cache, front), es[|es| - 1]);
    }
  }

  /** The last chunk joined to the others is the object, which passes every check. */
  lemma LastStep(s: Spec, blob: Bytes, d: Download, e: Event)
    requires s.Valid() && |blob| == s.manifest.cipherSize && s.digest(blob) == s.sha
    requires e.GetFinished? && e.reply.Data? && e.write == Whole && e.env.readable && e.env.renamable
    requires d.status == Running && d.named && d.active == Some(d.index) && d.index == s.ChunkCount() - 1
    requires |e.reply.bytes| == s.ChunkBytes(d.index)
    requires (if d.temp.Some? then d.temp.value else []) + e.reply.bytes == blob
    ensures Step(s, d, e).status == Available
    ensures Step(s, d, e).cache == if d.cache.Some? then d.cache else Some(blob)
  {
    hide Spec.Offset, Spec.ChunkBytes, Manifest.ChunkCount, Manifest.Valid, OnTicket, Pump, OnRefusal;
  }

  /** With the last chunk in, the file passes its final check: only the local disk can still refuse. */
  lemma LastChunkFinishes(s: Spec, cache: Option<Bytes>, blob: Bytes, es: seq<Event>, e: Event)
    requires s.Valid() && |blob| == s.manifest.cipherSize && s.digest(blob) == s.sha
    requires Undisturbed(es) && GenuineRun(s, cache, blob, es + [e])
    requires e.GetFinished? && e.reply.Data? && e.write == Whole && e.env.readable && e.env.renamable
    requires Run(s, cache, es).status == Running && Run(s, cache, es).active == Some(s.ChunkCount() - 1)
    ensures Run(s, cache, es + [e]).status == Available
    ensures Run(s, cache, es).cache.None? ==> Run(s, cache, es + [e]).cache == Some(blob)
  {
    hide Run, GenuineRun, Undisturbed, Step, Spec.Offset, Spec.ChunkBytes, Spec.ChunkCount, ServerSent;
    var d := Run(s, cache, es);
    LastReply(s, cache, blob, es, e);
    TempIsPrefix(s, cache, blob, es);
    UndisturbedConsistent(s, cache, es);
    ServerSentChunk(s, blob, d.index, e.reply.bytes);
    s.ChunkPlace(d.index);
    s.ChunkPlace(0);
    var before := if d.temp.Some? then d.temp.value else [];
    assert before + e.reply.bytes == blob;
    LastStep(s, blob, d, e);
  }

  lemma LastReply(s: Spec, cache: Option<Bytes>, blob: Bytes, es: seq<Event>, e: Event)
    requires s.Valid() && GenuineRun(s, cache, blob, es + [e])
    ensures GenuineRun(s, cache, blob, es) && GenuineReply(s, blob, Run(s, cache, es), e)
    ensures Run(s, cache, es + [e]) == Step(s, Run(s, cache, es), e)
  {
    hide Step, GenuineReply, Spec.Valid;
    assert (es + [e])[..|es|] == es;
  }

  // ---- Refusals ----

  /** What an event of the run makes of the count of transient failures since the last data reply or ticket. */
  function CountTransient(s: Spec, d: Download, e: Event, before: nat): nat {
    if !Enabled(s, d, e) then before
    else if e.Ticket? || (e.GetFinished? && e.reply.Data?) then 0
    else if e.GetFinished? && e.reply == TransientFailure then before + 1
    else before
  }

  /** The same of the count of tickets that were refused, and renewed, since the last data reply. */
  function CountExpired(s: Spec, d: Download, e: Event, before: nat): nat {
    if !Enabled(s, d, e) || !e.GetFinished? then before
    else if e.reply.Data? then 0
    else if e.reply == Unauthorized then before + 1
    else before
  }

  function TransientFailures(s: Spec, cache: Option<Bytes>, es: seq<Event>): nat
    requires s.Valid()
  {
    if es == [] then 0
    else
      var front, last := es[..|es| - 1], es[|es| - 1];
      CountTransient(s, Run(s, cache, front), last, TransientFailures(s, cache, front))
  }

  function ExpiredTickets(s: Spec, cache: Option<Bytes>, es: seq<Event>): nat
    requires s.Valid()
  {
    if es == [] then 0
    else
      var front, last := es[..|es| - 1], es[|es| - 1];
      CountExpired(s, Run(s, cache, front), last, ExpiredTickets(s, cache, front))
  }

  /** A running task holds a ticket or waits for one, and its counters count what the run's events tell. */
  predicate Tallied(d: Download, transient: nat, expired: nat) {
    d.status == Running ==>
      && (d.ticket || d.asked) && d.renewals == expired
      && (d.ticket ==> d.attempts == transient)
  }

  lemma FetchKeepsTallied(s: Spec, d: Download, env: Env, transient: nat, expired: nat)
    requires s.Valid() && Tallied(d, transient, expired)
    ensures Tallied(Fetch(s, d, env), transient, expired)
  {
    hide Spec.Offset, Spec.ChunkBytes, Manifest.ChunkCount, Manifest.Valid;
  }

  lemma GetKeepsTallied(s: Spec, d: Download, e: Event, transient: nat, expired: nat)
    requires s.Valid() && Consistent(s, d) && d.status == Running && Tallied(d, transient, expired)
    requires e.GetFinished? && d.active.Some?
    ensures Tallied(OnGet(s, d, e.reply, e.write, e.env), CountTransient(s, d, e, transient), CountExpired(s, d, e, expired))
  {
    hide Fetch, Spec.Offset, Spec.ChunkBytes, Manifest.ChunkCount, Manifest.Valid;
    var idle := d.(active := None);
    if e.reply.Data? {
      var before := if d.temp.Some? then d.temp.value else [];
      FetchKeepsTallied(s, idle.(temp := Some(before + e.reply.bytes), attempts := 0, renewals := 0,
                                 bytesDone := d.bytesDone + |e.reply.bytes|, index := d.index + 1), e.env, 0, 0);
    } else {
      FetchKeepsTallied(s, idle.(attempts := d.attempts + 1), e.env, transient + 1, expired);
    }
  }

  lemma StepKeepsTallied(s: Spec, d: Download, e: Event, transient: nat, expired: nat)
    requires s.Valid() && Consistent(s, d) && Tallied(d, transient, expired)
    ensures Tallied(Step(s, d, e), CountTransient(s, d, e, transient), CountExpired(s, d, e, expired))
  {
    hide Fetch, OnGet, Spec.Offset, Spec.ChunkBytes, Manifest.ChunkCount, Manifest.Valid;
    if Enabled(s, d, e) && d.status == Running {
      match e {
        case Ticket(_, _, _, env) =>
          var answered := d.(asked := false);
          var restart := answered.(named := true, temp := None, index := 0, bytesDone := 0);
          FetchKeepsTallied(s, answered.(ticket := true, attempts := 0), env, 0, expired);
          FetchKeepsTallied(s, restart.(ticket := true, attempts := 0), env, 0, expired);
        case PumpNext(env) => FetchKeepsTallied(s, d, env, transient, expired);
        case GetFinished(_, _, _) => GetKeepsTallied(s, d, e, transient, expired);
        case _ =>
      }
    }
  }

  lemma {:induction false} RunKeepsTallied(s: Spec, cache: Option<Bytes>, es: seq<Event>)
    requires s.Valid() && Undisturbed(es)
    ensures Tallied(Run(s, cache, es), TransientFailures(s, cache, es), ExpiredTickets(s, cache, es))
  {
    hide Step, CountTransient, CountExpired, Consistent, Tallied;
    if es == [] {
      StartTallied(s, cache);
    } else {
      var front := es[..|es| - 1];
      assert es[|es| - 1] in es;
      RunKeepsTallied(s, cache, front);
      UndisturbedConsistent(s, cache, front);
      StepKeepsTallied(s, Run(s, cache, front), es[|es| - 1], TransientFailures(s, cache, front), ExpiredTickets(s, cache, front));
    }
  }

  lemma StartTallied(s: Spec, cache: Option<Bytes>)
    ensures Tallied(Start(s, cache), 0, 0)
  {
  }

  /** A reply without data ends a task in one of these situations. */
  predicate Hopeless(reply: Reply, manifestKnown: bool, transient: nat, expired: nat) {
    || reply == PermanentFailure || !manifestKnown
    || (reply == TransientFailure && transient >= MAX_CHUNK_ATTEMPTS)
    || (reply == Unauthorized && expired >= MAX_TICKET_RENEWALS)
  }

  /** What a refused request leaves as it was. */
  predicate KeepsProgress(d: Download, t: Download) {
    && t.status == Running && t.named == d.named && t.index == d.index && t.bytesDone == d.bytesDone && t.temp == d.temp
    && t.cache == d.cache && t.installed == d.installed
  }

  /**
   A reply without data ends a running, undisturbed download exactly when it is permanent, the manifest
   is gone, the chunk has failed three times since the last data or ticket, or three tickets have been
   renewed since the last data. Otherwise nothing downloaded is lost: a transient failure asks for the
   same chunk once more, a refused ticket asks for another one.
   */
  lemma RefusalEndsExactlyWhen(s: Spec, cache: Option<Bytes>, es: seq<Event>, reply: Reply, write: Write, env: Env)
    requires s.Valid() && Undisturbed(es) && !reply.Data?
    requires Run(s, cache, es).status == Running && Run(s, cache, es).active.Some?
    ensures var d := Run(s, cache, es);
            var t := Run(s, cache, es + [GetFinished(reply, write, env)]);
            && (t.status != Running <==>
                  Hopeless(reply, env.manifestKnown, TransientFailures(s, cache, es), ExpiredTickets(s, cache, es)))
            && (t.status != Running ==> t.status == Failed && t.temp.None? && t.cache == d.cache && t.requests == d.requests)
            && (t.status == Running ==> KeepsProgress(d, t))
            && (t.status == Running && reply == TransientFailure ==>
                  t.active == Some(d.index) && t.requests == d.requests + [d.index] && t.ticket && !t.asked)
            && (t.status == Running && reply == Unauthorized ==>
                  t.active.None? && t.requests == d.requests && !t.ticket && t.asked)
  {
    var d := Run(s, cache, es);
    var e := GetFinished(reply, write, env);
    RunKeepsTallied(s, cache, es);
    UndisturbedConsistent(s, cache, es);
    assert Run(s, cache, es + [e]) == Step(s, d, e) by {
      assert (es + [e])[..|es|] == es;
      hide Step;
    }
    hide Run, TransientFailures, ExpiredTickets, Undisturbed, Spec.Offset, Spec.ChunkBytes, Manifest.ChunkCount, Manifest.Valid;
  }

  /**
   A reply with data continues a running, undisturbed download exactly when it is the chunk's length, is
   written whole, and is neither the last chunk nor met by a manifest that is gone; it completes the
   download exactly when it is the last chunk and the joined file passes digest and installation.
   */
  lemma DataEndsExactlyWhen(s: Spec, cache: Option<Bytes>, es: seq<Event>, bytes: Bytes, write: Write, env: Env)
    requires s.Valid() && Undisturbed(es) && Run(s, cache, es).status == Running && Run(s, cache, es).active.Some?
    ensures var d := Run(s, cache, es);
            var t := Run(s, cache, es + [GetFinished(Data(bytes), write, env)]);
            var joined := (if d.temp.Some? then d.temp.value else []) + bytes;
            var intact := |bytes| == s.ChunkBytes(d.index) && write == Whole;
            var last := d.index + 1 == s.ChunkCount();
            && (t.status == Running <==> intact && !last && env.manifestKnown)
            && (t.status == Available <==>
                  intact && last && env.readable && s.digest(joined) == s.sha && (d.cache.Some? || env.renamable))
            && (t.status == Running ==>
                  && t.index == d.index + 1 && t.bytesDone == d.bytesDone + |bytes| && t.temp == Some(joined)
                  && t.active == Some(t.index) && t.requests == d.requests + [t.index] && t.cache == d.cache)
            && (t.status == Available ==> t.temp.None? && !t.named && t.cache == if d.cache.Some? then d.cache else Some(joined))
            && (t.status == Failed ==> t.temp.None? && t.cache == d.cache)
  {
    var d := Run(s, cache, es);
    var e := GetFinished(Data(bytes), write, env);
    UndisturbedConsistent(s, cache, es);
    s.ChunkPlace(d.index);
    s.ChunkPlace(0);
    assert Run(s, cache, es + [e]) == Step(s, d, e) by {
      assert (es + [e])[..|es|] == es;
      hide Step;
    }
    hide Run, Undisturbed, Spec.Offset, Spec.ChunkBytes, Manifest.ChunkCount, Manifest.Valid, OnRefusal, OnTicket, Pump;
  }

  /** In any run, disturbed or not: requests are for the next chunk, with a ticket that nobody is asked for. */
  ghost predicate Requesting(s: Spec, d: Download)
    requires s.Valid()
  {
    d.status == Running ==>
      && d.index < s.ChunkCount() && (d.asked ==> !d.ticket) && (d.ticket ==> d.named)
      && (d.active.Some? ==> d.ticket && d.active.value == d.index)
  }

  lemma StepKeepsRequesting(s: Spec, d: Download, e: Event)
    requires s.Valid() && Requesting(s, d)
    ensures Requesting(s, Step(s, d, e))
  {
    s.ChunkPlace(0);
    hide Spec.Offset, Spec.ChunkBytes, Manifest.ChunkCount, Manifest.Valid, Finalize;
  }

  lemma {:induction false} RunKeepsRequesting(s: Spec, cache: Option<Bytes>, es: seq<Event>)
    requires s.Valid()
    ensures Requesting(s, Run(s, cache, es))
  {
    if es == [] {
      s.ChunkPlace(0);
      hide Spec.Offset, Spec.ChunkBytes, Manifest.ChunkCount, Manifest.Valid;
    } else {
      RunKeepsRequesting(s, cache, es[..|es| - 1]);
      hide Step, Requesting;
      StepKeepsRequesting(s, Run(s, cache, es[..|es| - 1]), es[|es| - 1]);
    }
  }

  /**
   In any run the answer to a ticket request ends a running task exactly when it is no ticket for this
   file, the cache directory is missing, or the manifest is gone when the next chunk is to be asked for.
   Otherwise the chunks so far are kept exactly if their file still has the length counted.
   */
  lemma TicketEndsExactlyWhen(s: Spec, cache: Option<Bytes>, es: seq<Event>, ok: bool, matches: bool, rootOk: bool, env: Env)
    requires s.Valid() && Run(s, cache, es).status == Running && Run(s, cache, es).asked
    ensures var d := Run(s, cache, es);
            var t := Run(s, cache, es + [Ticket(ok, matches, rootOk, env)]);
            var kept := d.named && d.index > 0 && d.temp.Some? && |d.temp.value| == d.bytesDone;
            && (t.status == Running <==> ok && matches && rootOk && (env.busy || env.manifestKnown))
            && (t.status != Running ==> t.status == Failed && t.temp.None? && t.cache == d.cache)
            && (t.status == Running ==>
                  && t.ticket && !t.asked && t.active == (if env.busy then None else Some(t.index))
                  && (t.index, t.bytesDone, t.temp) == if kept then (d.index, d.bytesDone, d.temp) else (0, 0, None))
  {
    var d := Run(s, cache, es);
    var e := Ticket(ok, matches, rootOk, env);
    RunKeepsRequesting(s, cache, es);
    s.ChunkPlace(0);
    assert Run(s, cache, es + [e]) == Step(s, d, e) by {
      assert (es + [e])[..|es|] == es;
      hide Step;
    }
    hide Run, Spec.Offset, Spec.ChunkBytes, Manifest.ChunkCount, Manifest.Valid, Finalize;
  }

  /** The scheduler's turn sends the next request exactly for a task that has a ticket and nothing in flight. */
  lemma TurnEndsExactlyWhen(s: Spec, cache: Option<Bytes>, es: seq<Event>, env: Env)
    requires s.Valid() && Run(s, cache, es).status == Running
    ensures var d := Run(s, cache, es);
            var t := Run(s, cache, es + [PumpNext(env)]);
            var due := !env.busy && d.ticket && d.active.None?;
            && (t.status == Running <==> !due || env.manifestKnown) && (t.status != Running ==> t.status == Failed)
            && t.requests == d.requests + (if due && env.manifestKnown then [d.index] else [])
            && (t.status == Running ==>
                  KeepsProgress(d, t) && t.active == if due then Some(d.index) else d.active)
  {
    var d := Run(s, cache, es);
    var e := PumpNext(env);
    RunKeepsRequesting(s, cache, es);
    assert Run(s, cache, es + [e]) == Step(s, d, e) by {
      assert (es + [e])[..|es|] == es;
      hide Step;
    }
    hide Run, Spec.Offset, Spec.ChunkBytes, Manifest.ChunkCount, Manifest.Valid, Finalize;
  }

  // ---- Downloads that succeed ----

  const HEALTHY := Env(false, true, true, true)

  /** What the server sends for chunk k is that chunk. */
  lemma ChunkIsGenuine(s: Spec, blob: Bytes, k: nat)
    requires s.Valid() && k < s.ChunkCount() && |blob| == s.manifest.cipherSize
    ensures s.Offset(k) <= s.Offset(k) + s.ChunkBytes(k) <= |blob|
    ensures ServerSent(s, blob, k, blob[s.Offset(k)..s.Offset(k) + s.ChunkBytes(k)])
  {
    s.ChunkPlace(k);
    FileHttpService.ChunkRequestAnswered(blob, s.manifest.chunkSize, s.ChunkCount(), k);
    hide FileHttpService.Answer, FileHttpService.PrintRange, ExpectedChunkBytes, Manifest.ChunkCount;
  }

  lemma OneMore(s: Spec, cache: Option<Bytes>, blob: Bytes, es: seq<Event>, e: Event)
    requires s.Valid() && GenuineRun(s, cache, blob, es) && GenuineReply(s, blob, Run(s, cache, es), e)
    requires Undisturbed(es) && !e.TempDisturbed?
    ensures Run(s, cache, es + [e]) == Step(s, Run(s, cache, es), e)
    ensures GenuineRun(s, cache, blob, es + [e]) && Undisturbed(es + [e])
  {
    hide Step, GenuineReply, Spec.Valid;
    assert (es + [e])[..|es|] == es;
  }

  /** A run that ends in the cache: with the object, unless another task's entry was there already. */
  predicate Finished(s: Spec, cache: Option<Bytes>, blob: Bytes, before: Option<Bytes>, es: seq<Event>)
    requires s.Valid()
  {
    && Undisturbed(es) && GenuineRun(s, cache, blob, es) && Run(s, cache, es).status == Available
    && Run(s, cache, es).cache == if before.Some? then before else Some(blob)
  }

  lemma ChunkAdvances(s: Spec, d: Download, bytes: Bytes)
    requires s.Valid() && d.status == Running && d.named && d.active == Some(d.index) && d.index + 1 < s.ChunkCount()
    requires |bytes| == s.ChunkBytes(d.index)
    ensures var t := Step(s, d, GetFinished(Data(bytes), Whole, HEALTHY));
            t.status == Running && t.active == Some(t.index) && t.index == d.index + 1 && t.cache == d.cache
  {
    hide Spec.Offset, Spec.ChunkBytes, Manifest.ChunkCount, Manifest.Valid;
  }

  /** With a chunk in flight, the server's answers for it and the chunks after it complete the file. */
  lemma {:induction false} ChunksComplete(s: Spec, cache: Option<Bytes>, blob: Bytes, es: seq<Event>)
    requires s.Valid() && |blob| == s.manifest.cipherSize && s.digest(blob) == s.sha
    requires Undisturbed(es) && GenuineRun(s, cache, blob, es)
    requires Run(s, cache, es).status == Running && Run(s, cache, es).active.Some?
    ensures Run(s, cache, es).index < s.ChunkCount()
    ensures exists more :: Finished(s, cache, blob, Run(s, cache, es).cache, es + more)
    decreases s.ChunkCount() - Run(s, cache, es).index
  {
    hide Run, GenuineRun, Undisturbed, Step, ServerSent, Spec.Offset, Spec.ChunkBytes, Spec.ChunkCount, Spec.Valid;
    var d := Run(s, cache, es);
    UndisturbedConsistent(s, cache, es);
    assert d.index < s.ChunkCount() && d.active == Some(d.index) && d.named;
    TempIsPrefix(s, cache, blob, es);
    s.ChunkPlace(d.index);
    s.ChunkPlace(0);
    ChunkIsGenuine(s, blob, d.index);
    var bytes := blob[s.Offset(d.index)..s.Offset(d.index) + s.ChunkBytes(d.index)];
    var e := GetFinished(Data(bytes), Whole, HEALTHY);
    OneMore(s, cache, blob, es, e);
    if d.index + 1 < s.ChunkCount() {
      ChunkAdvances(s, d, bytes);
      ChunksComplete(s, cache, blob, es + [e]);
      var more :| Finished(s, cache, blob, d.cache, es + [e] + more);
      assert es + [e] + more == es + ([e] + more);
    } else {
      assert (if d.temp.Some? then d.temp.value else []) + bytes == blob;
      LastStep(s, blob, d, e);
      assert Finished(s, cache, blob, d.cache, es + [e]);
    }
  }

  /** A task without a chunk in flight waits for a ticket or for its turn; either brings a request. */
  lemma IdleResumes(s: Spec, d: Download, transient: nat, expired: nat)
    requires s.Valid() && Consistent(s, d) && Tallied(d, transient, expired) && d.status == Running && d.active.None?
    ensures var t := Step(s, d, if d.asked then Ticket(true, true, true, HEALTHY) else PumpNext(HEALTHY));
            t.status == Running && t.active.Some? && t.cache == d.cache
  {
    s.ChunkPlace(0);
    hide Spec.Offset, Spec.ChunkBytes, Manifest.ChunkCount, Manifest.Valid;
  }

  /**
   An undisturbed download answered by a server with the object can still end in the cache exactly
   when it has not failed: whatever refusals, retries, renewals and lost chunks lie behind it.
   */
  lemma CompletableExactlyWhen(s: Spec, cache: Option<Bytes>, blob: Bytes, es: seq<Event>)
    requires s.Valid() && |blob| == s.manifest.cipherSize && s.digest(blob) == s.sha
    requires Undisturbed(es) && GenuineRun(s, cache, blob, es)
    ensures Run(s, cache, es).status == Running ==>
              exists more :: Finished(s, cache, blob, Run(s, cache, es).cache, es + more)
    ensures (exists more :: Undisturbed(es + more) && GenuineRun(s, cache, blob, es + more) && Run(s, cache, es + more).status == Available)
            <==> Run(s, cache, es).status != Failed
  {
    hide Run, GenuineRun, Undisturbed, Step, Spec.Offset, Spec.ChunkBytes, Spec.ChunkCount, Spec.Valid, Consistent, Tallied;
    var d := Run(s, cache, es);
    match d.status {
      case Failed =>
        forall more
          ensures Run(s, cache, es + more).status == Failed
        {
          FailedForever(s, cache, es, more);
        }
      case Available => assert es + [] == es;
      case Running =>
        RunningCompletes(s, cache, blob, es);
        var more :| Finished(s, cache, blob, d.cache, es + more);
    }
  }

  lemma RunningCompletes(s: Spec, cache: Option<Bytes>, blob: Bytes, es: seq<Event>)
    requires s.Valid() && |blob| == s.manifest.cipherSize && s.digest(blob) == s.sha
    requires Undisturbed(es) && GenuineRun(s, cache, blob, es) && Run(s, cache, es).status == Running
    ensures exists more :: Finished(s, cache, blob, Run(s, cache, es).cache, es + more)
  {
    hide Run, GenuineRun, Undisturbed, Step, Spec.Offset, Spec.ChunkBytes, Spec.ChunkCount, Spec.Valid, Consistent, Tallied, Finished;
    hide TransientFailures, ExpiredTickets;
    var d := Run(s, cache, es);
    if d.active.Some? {
      ChunksComplete(s, cache, blob, es);
    } else {
      UndisturbedConsistent(s, cache, es);
      RunKeepsTallied(s, cache, es);
      IdleResumes(s, d, TransientFailures(s, cache, es), ExpiredTickets(s, cache, es));
      var e := if d.asked then Ticket(true, true, true, HEALTHY) else PumpNext(HEALTHY);
      OneMore(s, cache, blob, es, e);
      ChunksComplete(s, cache, blob, es + [e]);
      var more :| Finished(s, cache, blob, d.cache, es + [e] + more);
      assert es + [e] + more == es + ([e] + more);
    }
  }

  lemma {:induction false} FailedForever(s: Spec, cache: Option<Bytes>, es: seq<Event>, more: seq<Event>)
    requires s.Valid() && Run(s, cache, es).status == Failed
    ensures Run(s, cache, es + more).status == Failed
  {
    if more == [] {
      assert es + more == es;
    } else {
      FailedForever(s, cache, es, more[..|more| - 1]);
      assert (es + more)[..|es + more| - 1] == es + more[..|more| - 1];
      hide TaskStep;
    }
  }

  /** Every object can be downloaded: with nothing going wrong it is in the cache at the end. */
  lemma DownloadCanSucceed(s: Spec, blob: Bytes)
    requires s.Valid() && |blob| == s.manifest.cipherSize && s.digest(blob) == s.sha
    ensures exists es :: && Undisturbed(es) && GenuineRun(s, None, blob, es)
                         && Run(s, None, es).status == Available && Run(s, None, es).cache == Some(blob)
  {
    assert Run(s, None, []) == Start(s, None);
    RunningCompletes(s, None, blob, []);
    var more :| Finished(s, None, blob, None, [] + more);
  }

  // ---- The task object ----

  class DownloadTask {
    const spec: Spec
    var ticket: bool
    var asked: bool
    var named: bool
    var downloadIndex: nat
    var bytesDone: nat
    var attempts: nat
    var ticketRenewals: nat
    var activeIndex: int
    var status: Status
    var temp: Option<Bytes>
    var cache: Option<Bytes>
    var installed: Option<Bytes>
    var requests: seq<nat>

    constructor (spec: Spec, cache: Option<Bytes>)
      requires spec.Valid()
      ensures this.spec == spec && Valid() && View() == Start(spec, cache)
    {
      var cached := cache.Some? && |cache.value| == spec.manifest.cipherSize;
      this.spec, this.cache := spec, cache;
      ticket, asked, named := false, !cached, false;
      downloadIndex, bytesDone, attempts, ticketRenewals, activeIndex := 0, 0, 0, 0, -1;
      status := if cached then Available else Running;
      temp, installed, requests := None, None, [];
    }

    /** Requests are for chunks of the layout, and the one in flight is the last one sent. */
    predicate Valid()
      reads this
    {
      && spec.Valid() && -1 <= activeIndex
      && (forall i <- requests :: i < spec.ChunkCount())
      && (activeIndex >= 0 ==> requests != [] && requests[|requests| - 1] == activeIndex)
    }

    function View(): Download
      reads this
      requires Valid()
    {
      Download(ticket, asked, named, downloadIndex, bytesDone, attempts, ticketRenewals,
               if activeIndex < 0 then None else Some(activeIndex), status, temp, cache, installed, requests)
    }

    method FailTask()
      requires Valid()
      modifies this`status, this`temp
      ensures Valid() && View() == Fail(old(View()))
    {
      status, temp := Failed, None;
    }

    /** On refusal only the temporary file may have gone; the caller fails the task. */
    method FinalizeDownload(env: Env) returns (ok: bool)
      requires Valid() && status == Running
      modifies this`temp, this`cache, this`installed, this`named
      ensures Valid() && ok == (Finalize(spec, old(View()), env).status == Available)
      ensures ok ==> View().(status := Available) == Finalize(spec, old(View()), env)
      ensures !ok ==> cache == old(cache) && installed == old(installed) && named == old(named)
    {
      hide Spec.Valid, Spec.ChunkCount;
      var checked := CheckTemp(env);
      if !checked {
        return false;
      }
      ok := InstallTemp(env.renamable);
      named := named && !ok;
    }

    /** The temporary file takes the object's place, unless that is taken. */
    method InstallTemp(renamable: bool) returns (ok: bool)
      modifies this`temp, this`cache, this`installed
      ensures ok <==> old(cache).Some? || renamable
      ensures temp == None
      ensures if ok && old(cache).None? then cache == installed == old(temp)
              else cache == old(cache) && installed == old(installed)
    {
      if cache.None? {
        if !renamable {
          temp := None;
          return false;
        }
        cache, installed := temp, temp;
      }
      temp := None;
      return true;
    }

    /** Length and digest of the temporary file. */
    method CheckTemp(env: Env) returns (ok: bool)
      modifies this`temp
      ensures ok <==> && old(temp).Some? && |old(temp).value| == spec.manifest.cipherSize && env.readable
                      && spec.digest(old(temp).value) == spec.sha
      ensures ok ==> temp == old(temp)
    {
      if temp.None? {
        return false;
      }
      var content := temp.value;
      if |content| != spec.manifest.cipherSize {
        temp := None;
        return false;
      }
      if !env.readable {
        return false;
      }
      if spec.digest(content) != spec.sha {
        temp := None;
        return false;
      }
      return true;
    }

    method PumpDownload(env: Env)
      requires Valid() && status == Running
      modifies this`temp, this`cache, this`installed, this`named, this`status, this`activeIndex, this`requests
      ensures Valid() && View() == Fetch(spec, old(View()), env)
    {
      if activeIndex >= 0 || !named {
        return;
      }
      if downloadIndex >= spec.ChunkCount() {
        var ok := FinalizeDownload(env);
        if !ok {
          FailTask();
          return;
        }
        status := Available;
        return;
      }
      spec.ChunkPlace(downloadIndex);
      if spec.ChunkBytes(downloadIndex) <= 0 {
        assert false; // a valid layout has no empty chunk
      }
      if !env.manifestKnown {
        FailTask();
        return;
      }
      activeIndex := downloadIndex;
      requests := requests + [downloadIndex];
    }

    /** This task's part in a turn of the scheduler. */
    method PumpNext(env: Env)
      requires Valid() && status == Running
      modifies this
      ensures Valid() && View() == Pump(spec, old(View()), env)
    {
      if !env.busy && ticket && named {
        PumpDownload(env);
      }
    }

    method OnDownloadTicket(ok: bool, matches: bool, rootOk: bool, env: Env)
      requires Valid() && status == Running && asked
      modifies this
      ensures Valid() && View() == OnTicket(spec, old(View()), ok, matches, rootOk, env)
    {
      hide Spec.Valid, Spec.ChunkCount, Pump;
      asked := false;
      if !ok || !matches || !rootOk {
        FailTask();
        return;
      }
      PlaceTemp();
      ticket := true;
      attempts := 0;
      PumpNext(env);
    }

    /** Keeps a temporary file that can be resumed, otherwise begins a new one. */
    method PlaceTemp()
      requires Valid()
      modifies this
      ensures Valid()
      ensures View() == if Resumable(old(View())) then old(View())
                        else old(View()).(named := true, temp := None, index := 0, bytesDone := 0)
    {
      hide Spec.Valid, Spec.ChunkCount;
      var resuming := named && downloadIndex > 0;
      if resuming {
        if temp.None? || |temp.value| != bytesDone {
          temp := None;
          resuming := false;
        }
      }
      if !resuming {
        named := true;
        temp := None;
        downloadIndex, bytesDone := 0, 0;
      }
    }

    method RenewTicket()
      modifies this`ticketRenewals, this`attempts, this`ticket, this`asked
      ensures ticketRenewals == old(ticketRenewals) + 1 && attempts == 0 && !ticket && asked
    {
      ticketRenewals := ticketRenewals + 1;
      attempts := 0;
      ticket, asked := false, true;
    }

    method OnRefused(reply: Reply, env: Env)
      requires Valid() && status == Running && activeIndex == -1
      modifies this
      ensures Valid() && View() == OnRefusal(spec, old(View()), reply, env)
    {
      hide Spec.Valid, Spec.ChunkCount, Fetch;
      attempts := attempts + 1;
      if reply == Unauthorized && ticketRenewals < MAX_TICKET_RENEWALS && env.manifestKnown {
        RenewTicket();
        return;
      }
      if reply == TransientFailure && attempts <= MAX_CHUNK_ATTEMPTS {
        PumpDownload(env);
        return;
      }
      FailTask();
    }

    method AppendChunk(bytes: Bytes, write: Write) returns (ok: bool)
      modifies this`temp
      ensures ok <==> write == Whole
      ensures ok ==> temp == Some((if old(temp).Some? then old(temp).value else []) + bytes)
    {
      match write {
        case CannotOpen =>
          return false;
        case Short(count) =>
          temp := Some((if temp.Some? then temp.value else []) + bytes[..Min(count, |bytes|)]);
          return false;
        case Whole =>
          temp := Some((if temp.Some? then temp.value else []) + bytes);
          return true;
      }
    }

    method OnGetFinished(reply: Reply, write: Write, env: Env)
      requires Valid() && status == Running && activeIndex >= 0
      modifies this
      ensures Valid() && View() == OnGet(spec, old(View()), reply, write, env)
    {
      hide Spec.Valid, Spec.ChunkBytes, Spec.ChunkCount, Fetch, OnRefusal;
      var index: nat := activeIndex;
      activeIndex := -1;
      if !reply.Data? {
        OnRefused(reply, env);
        return;
      }
      AcceptChunk(index, reply.bytes, write, env);
    }

    method CountChunk(length: nat)
      modifies this`attempts, this`ticketRenewals, this`bytesDone, this`downloadIndex
      ensures attempts == ticketRenewals == 0
      ensures bytesDone == old(bytesDone) + length && downloadIndex == old(downloadIndex) + 1
    {
      attempts := 0;
      ticketRenewals := 0;
      bytesDone := bytesDone + length;
      downloadIndex := downloadIndex + 1;
    }

    /** The bytes of a chunk have arrived; nothing is in flight any more. */
    method AcceptChunk(index: nat, bytes: Bytes, write: Write, env: Env)
      requires Valid() && status == Running && activeIndex == -1
      modifies this
      ensures Valid()
      ensures View() == OnGet(spec, old(View()).(active := Some(index)), Data(bytes), write, env)
    {
      hide Spec.Valid, Spec.ChunkBytes, Spec.ChunkCount, Fetch, OnRefusal;
      if |bytes| != spec.ChunkBytes(index) {
        FailTask();
        return;
      }
      var appended := AppendChunk(bytes, write);
      if !appended {
        FailTask();
        return;
      }
      CountChunk(|bytes|);
      PumpDownload(env);
    }
  }
}
