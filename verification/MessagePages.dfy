/**
 Working through pages of messages in time slices: decrypting, storing, stripping for display.

 The pump owns one page at a time and a bounded queue of waiting ones. Decryption changes the key
 state it is given; server pages are stored before they are stripped, cached pages are not stored.
 */
module MessagePages {

  const MAX_QUEUED_PAGES := 16

  datatype Message = Message(id: int, content: string, isDistribution: bool)

  /** The client's keys, as far as decryption changes them: one counter per sender chain. */
  type Keys = map<string, nat>

  /** What is done to a message; the key-changing parts take and return the keys. */
  datatype Crypto = Crypto(
    install: (Keys, Message) -> Keys,
    keysAfter: (Keys, Message) -> Keys,
    decrypted: (Keys, Message) -> Message,
    decryptedRow: Message -> Message,
    stripped: Message -> Message)

  datatype Page = Page(conv: int, fromServer: bool, hasMore: bool, messages: seq<Message>)

  /** Keys, messages to show and messages stored, after some messages of a page. */
  datatype Progress = Progress(keys: Keys, visible: seq<Message>, stored: seq<Message>)

  function Process(c: Crypto, fromServer: bool, p: Progress, m: Message): Progress {
    if !fromServer then p.(visible := p.visible + [c.stripped(c.decryptedRow(m))])
    else if m.isDistribution then p.(keys := c.install(p.keys, m))
    else
      var plain := c.decrypted(p.keys, m);
      Progress(c.keysAfter(p.keys, m), p.visible + [c.stripped(plain)], p.stored + [plain])
  }

  /** The page processed in one go, message after message. */
  function Whole(c: Crypto, fromServer: bool, keys: Keys, messages: seq<Message>): Progress {
    if messages == [] then Progress(keys, [], [])
    else Process(c, fromServer, Whole(c, fromServer, keys, messages[..|messages| - 1]), messages[|messages| - 1])
  }

  datatype Emission = Emission(conv: int, visible: seq<Message>, hasMore: bool)

  /** What the view is told of a page: nothing if it had messages but none to show. */
  function Shown(c: Crypto, keys: Keys, p: Page): seq<Emission> {
    var w := Whole(c, p.fromServer, keys, p.messages);
    if p.messages == [] || w.visible != [] then [Emission(p.conv, w.visible, p.hasMore)] else []
  }

  lemma WholeStep(c: Crypto, fromServer: bool, keys: Keys, messages: seq<Message>, k: nat)
    requires k < |messages|
    ensures Whole(c, fromServer, keys, messages[..k + 1])
         == Process(c, fromServer, Whole(c, fromServer, keys, messages[..k]), messages[k])
  {
    assert messages[..k + 1][..k] == messages[..k];
  }

  /** Stored and shown messages of a page come one for one, in the page's order, distributions left out. */
  function Plain(messages: seq<Message>): seq<Message> {
    if messages == [] then []
    else Plain(messages[..|messages| - 1]) + if messages[|messages| - 1].isDistribution then [] else [messages[|messages| - 1]]
  }

  /** The keys after the first k messages of a server page: each distribution installs, each other message uses them. */
  function KeysAt(c: Crypto, keys: Keys, messages: seq<Message>, k: nat): Keys
    requires k <= |messages|
  {
    if k == 0 then keys
    else
      var before := KeysAt(c, keys, messages, k - 1);
      if messages[k - 1].isDistribution then c.install(before, messages[k - 1]) else c.keysAfter(before, messages[k - 1])
  }

  /** How many of the first k messages are no distributions. */
  function PlainBefore(messages: seq<Message>, k: nat): nat
    requires k <= |messages|
  {
    if k == 0 then 0 else PlainBefore(messages, k - 1) + if messages[k - 1].isDistribution then 0 else 1
  }

  lemma {:induction false} KeysThread(c: Crypto, keys: Keys, messages: seq<Message>, k: nat)
    requires k <= |messages|
    ensures var w := Whole(c, true, keys, messages[..k]);
            w.keys == KeysAt(c, keys, messages, k) && |w.stored| == PlainBefore(messages, k)
  {
    if k > 0 {
      KeysThread(c, keys, messages, k - 1);
      WholeStep(c, true, keys, messages, k - 1);
      hide Whole;
    }
  }

  lemma StepStores(c: Crypto, p: Progress, m: Message)
    ensures p.stored <= Process(c, true, p, m).stored
  {
  }

  lemma {:induction false} StoredGrows(c: Crypto, keys: Keys, messages: seq<Message>, i: nat, k: nat)
    requires i <= k <= |messages|
    ensures Whole(c, true, keys, messages[..i]).stored <= Whole(c, true, keys, messages[..k]).stored
  {
    if i < k {
      StoredGrows(c, keys, messages, i, k - 1);
      WholeStep(c, true, keys, messages, k - 1);
      hide Whole;
      StepStores(c, Whole(c, true, keys, messages[..k - 1]), messages[k - 1]);
      hide Process;
    }
  }

  /**
   A message of a server page is decrypted under the keys that all messages before it left, distributions
   included, and stored at its place among the others; a distribution is neither stored nor shown.
   */
  lemma DecryptedInOrder(c: Crypto, keys: Keys, messages: seq<Message>, i: nat)
    requires i < |messages| && !messages[i].isDistribution
    ensures var w := Whole(c, true, keys, messages);
            && w.keys == KeysAt(c, keys, messages, |messages|) && |w.stored| == PlainBefore(messages, |messages|)
            && PlainBefore(messages, i) < |w.stored|
            && w.stored[PlainBefore(messages, i)] == c.decrypted(KeysAt(c, keys, messages, i), messages[i])
  {
    KeysThread(c, keys, messages, i);
    KeysThread(c, keys, messages, |messages|);
    WholeStep(c, true, keys, messages, i);
    StoredGrows(c, keys, messages, i + 1, |messages|);
    assert messages[..|messages|] == messages;
    hide Whole, KeysAt, PlainBefore;
    var w := Whole(c, true, keys, messages[..i + 1]);
    assert w.stored[PlainBefore(messages, i)] == c.decrypted(KeysAt(c, keys, messages, i), messages[i]);
  }

  lemma {:induction false} ServerPageCounts(c: Crypto, keys: Keys, messages: seq<Message>)
    ensures var w := Whole(c, true, keys, messages);
            && |w.visible| == |w.stored| == |Plain(messages)|
            && (forall k :: 0 <= k < |w.visible| ==> w.visible[k] == c.stripped(w.stored[k]))
  {
    if messages != [] {
      ServerPageCounts(c, keys, messages[..|messages| - 1]);
    }
  }

  lemma {:induction false} CachedPageStoresNothing(c: Crypto, keys: Keys, messages: seq<Message>)
    ensures var w := Whole(c, false, keys, messages);
            && w.keys == keys && w.stored == [] && |w.visible| == |messages|
            && (forall k :: 0 <= k < |messages| ==> w.visible[k] == c.stripped(c.decryptedRow(messages[k])))
  {
    if messages != [] {
      CachedPageStoresNothing(c, keys, messages[..|messages| - 1]);
    }
  }

  /** Concatenation of the batches handed to the store. */
  function Joined(batches: seq<seq<Message>>): seq<Message> {
    if batches == [] then [] else Joined(batches[..|batches| - 1]) + batches[|batches| - 1]
  }

  /** Pages processed whole, one after another: what is shown, what is stored, the keys at the end. */
  datatype Outcome = Outcome(keys: Keys, shown: seq<Emission>, stored: seq<Message>)

  function AllPages(c: Crypto, keys: Keys, pages: seq<Page>): Outcome {
    if pages == [] then Outcome(keys, [], [])
    else
      var o := AllPages(c, keys, pages[..|pages| - 1]);
      var p := pages[|pages| - 1];
      var w := Whole(c, p.fromServer, o.keys, p.messages);
      Outcome(w.keys, o.shown + Shown(c, o.keys, p), o.stored + w.stored)
  }

  /** Pages that left the queue, in order, sorted by their fate. */
  function Split(pages: seq<Page>, fates: seq<bool>): (seq<Page>, seq<Page>)
    requires |pages| == |fates|
  {
    if pages == [] then ([], [])
    else
      var last := |pages| - 1;
      var (yes, no) := Split(pages[..last], fates[..last]);
      if fates[last] then (yes + [pages[last]], no) else (yes, no + [pages[last]])
  }

  lemma SplitStep(arrived: seq<Page>, fates: seq<bool>, taken: bool)
    requires |fates| < |arrived|
    ensures var (yes, no) := Split(arrived[..|fates|], fates);
            var p := arrived[|fates|];
            Split(arrived[..|fates| + 1], fates + [taken]) == if taken then (yes + [p], no) else (yes, no + [p])
  {
    assert arrived[..|fates| + 1][..|fates|] == arrived[..|fates|];
    assert (fates + [taken])[..|fates|] == fates;
  }

  /** What became of the pages that arrived. */
  datatype Log = Log(
    arrived: seq<Page>, // every page enqueued
    taken: seq<Page>,   // pages taken up, in order
    dropped: seq<Page>, // pages dropped from the queue, in order
    fates: seq<bool>)   // for each page that left the queue, in order: was it taken up?

  /** The queue is the latest pages; the earlier ones left it in order, taken up or dropped. */
  ghost predicate Ordered(queue: seq<Page>, log: Log) {
    && |queue| <= MAX_QUEUED_PAGES
    && |log.fates| + |queue| == |log.arrived| && log.arrived[|log.fates|..] == queue
    && Split(log.arrived[..|log.fates|], log.fates) == (log.taken, log.dropped)
  }

  lemma LeaveKeepsOrdered(queue: seq<Page>, log: Log, taken: bool)
    requires Ordered(queue, log) && queue != []
    ensures Ordered(queue[1..], if taken then log.(taken := log.taken + [queue[0]], fates := log.fates + [true])
                                else log.(dropped := log.dropped + [queue[0]], fates := log.fates + [false]))
  {
    SplitStep(log.arrived, log.fates, taken);
  }

  lemma ArriveKeepsOrdered(queue: seq<Page>, log: Log, p: Page)
    requires Ordered(queue, log) && |queue| < MAX_QUEUED_PAGES
    ensures Ordered(queue + [p], log.(arrived := log.arrived + [p]))
  {
    assert (log.arrived + [p])[..|log.fates|] == log.arrived[..|log.fates|];
  }

  /** The page under way, with what has come of it. */
  datatype Job = Job(page: Page, nextIndex: nat, visible: seq<Message>)

  /** What has been handed on. */
  datatype Output = Output(keys: Keys, emitted: seq<Emission>, batches: seq<seq<Message>>)

  /** Between pages, everything shown and stored is what processing the pages whole would give. */
  ghost predicate AtPageEnd(c: Crypto, firstKeys: Keys, taken: seq<Page>, out: Output) {
    AllPages(c, firstKeys, taken) == Outcome(out.keys, out.emitted, Joined(out.batches))
  }

  /** Within a page: the same for the finished pages, and for the processed part of this one. */
  ghost predicate WithinPage(c: Crypto, firstKeys: Keys, taken: seq<Page>, job: Job, toStore: seq<Message>, out: Output) {
    && taken != [] && taken[|taken| - 1] == job.page && job.nextIndex <= |job.page.messages|
    && var o := AllPages(c, firstKeys, taken[..|taken| - 1]);
       var w := Whole(c, job.page.fromServer, o.keys, job.page.messages[..job.nextIndex]);
       && out.emitted == o.shown && out.keys == w.keys && job.visible == w.visible
       && Joined(out.batches) + toStore == o.stored + w.stored
  }

  lemma TakeBegins(c: Crypto, firstKeys: Keys, taken: seq<Page>, p: Page, out: Output)
    requires AtPageEnd(c, firstKeys, taken, out)
    ensures WithinPage(c, firstKeys, taken + [p], Job(p, 0, []), [], out)
  {
    assert (taken + [p])[..|taken|] == taken;
    assert p.messages[..0] == [];
  }

  /** One message of the page, as the slice loop handles it. */
  lemma MessageAdvances(c: Crypto, firstKeys: Keys, taken: seq<Page>, job: Job, toStore: seq<Message>, out: Output)
    requires WithinPage(c, firstKeys, taken, job, toStore, out) && job.nextIndex < |job.page.messages|
    ensures var m := job.page.messages[job.nextIndex];
            var p := Process(c, job.page.fromServer, Progress(out.keys, job.visible, toStore), m);
            WithinPage(c, firstKeys, taken, Job(job.page, job.nextIndex + 1, p.visible), p.stored, out.(keys := p.keys))
  {
    var o := AllPages(c, firstKeys, taken[..|taken| - 1]);
    var w := Whole(c, job.page.fromServer, o.keys, job.page.messages[..job.nextIndex]);
    var plain := c.decrypted(out.keys, job.page.messages[job.nextIndex]);
    WholeStep(c, job.page.fromServer, o.keys, job.page.messages, job.nextIndex);
    assert Joined(out.batches) + (toStore + [plain]) == Joined(out.batches) + toStore + [plain];
    assert o.stored + (w.stored + [plain]) == o.stored + w.stored + [plain];
  }

  lemma BatchHandedOn(c: Crypto, firstKeys: Keys, taken: seq<Page>, job: Job, toStore: seq<Message>, out: Output)
    requires WithinPage(c, firstKeys, taken, job, toStore, out)
    ensures WithinPage(c, firstKeys, taken, job, [], if toStore == [] then out else out.(batches := out.batches + [toStore]))
  {
    assert (out.batches + [toStore])[..|out.batches|] == out.batches;
    assert Joined(out.batches) + [] == Joined(out.batches);
  }

  lemma PageEnds(c: Crypto, firstKeys: Keys, taken: seq<Page>, job: Job, out: Output)
    requires WithinPage(c, firstKeys, taken, job, [], out) && job.nextIndex == |job.page.messages|
    ensures AtPageEnd(c, firstKeys, taken,
              if job.page.messages == [] || job.visible != []
              then out.(emitted := out.emitted + [Emission(job.page.conv, job.visible, job.page.hasMore)]) else out)
  {
    assert job.page.messages[..job.nextIndex] == job.page.messages;
    assert Joined(out.batches) + [] == Joined(out.batches);
    assert out.emitted + [] == out.emitted;
  }

  lemma IndexInPage(c: Crypto, firstKeys: Keys, taken: seq<Page>, job: Job, toStore: seq<Message>, out: Output)
    requires WithinPage(c, firstKeys, taken, job, toStore, out)
    ensures job.nextIndex <= |job.page.messages|
  {
  }

  /** How many of a page's first k messages count against a slice's budget. */
  function Handled(p: Page, k: nat): nat
    requires k <= |p.messages|
  {
    if p.fromServer then PlainBefore(p.messages, k) else k
  }

  class MessagePagePump {
    const crypto: Crypto
    var queue: seq<Page>
    var active: bool
    var page: Page
    var nextIndex: nat
    var visible: seq<Message>
    var keys: Keys
    var emitted: seq<Emission>
    var batches: seq<seq<Message>>
    ghost const firstKeys: Keys
    ghost var log: Log

    constructor (crypto: Crypto, keys: Keys)
      ensures this.crypto == crypto && firstKeys == keys && Valid()
      ensures queue == [] && !active && emitted == [] && batches == [] && log == Log([], [], [], [])
    {
      this.crypto := crypto;
      this.keys, firstKeys := keys, keys;
      queue, active, page, nextIndex, visible := [], false, Page(0, false, false, []), 0, [];
      emitted, batches, log := [], [], Log([], [], [], []);
    }

    ghost function Out(): Output
      reads this
    {
      Output(keys, emitted, batches)
    }

    ghost predicate Valid()
      reads this
    {
      && Ordered(queue, log)
      && if active then WithinPage(crypto, firstKeys, log.taken, Job(page, nextIndex, visible), [], Out())
         else AtPageEnd(crypto, firstKeys, log.taken, Out())
    }

    /** A full queue loses its oldest page. */
    method EnqueueMessagePage(p: Page)
      requires Valid()
      modifies this`queue, this`log
      ensures Valid() && log.arrived == old(log.arrived) + [p] && log.taken == old(log.taken)
      ensures queue == (if |old(queue)| >= MAX_QUEUED_PAGES then old(queue)[1..] else old(queue)) + [p]
      ensures log.dropped == old(log.dropped) + if |old(queue)| >= MAX_QUEUED_PAGES then [old(queue)[0]] else []
    {
      hide WithinPage, AtPageEnd;
      ghost var q, l := queue, log;
      while |queue| >= MAX_QUEUED_PAGES
        invariant Ordered(queue, log) && log.arrived == l.arrived && log.taken == l.taken
        invariant if |queue| == |q| then queue == q && log == l
                  else |q| == MAX_QUEUED_PAGES && queue == q[1..] && log.dropped == l.dropped + [q[0]]
      {
        LeaveKeepsOrdered(queue, log, false);
        log := log.(dropped := log.dropped + [queue[0]], fates := log.fates + [false]);
        queue := queue[1..];
      }
      ArriveKeepsOrdered(queue, log, p);
      queue := queue + [p];
      log := log.(arrived := log.arrived + [p]);
    }

    method TakePage()
      requires Valid() && !active && queue != []
      modifies this`queue, this`active, this`page, this`nextIndex, this`visible, this`log
      ensures Valid() && active && nextIndex == 0 && page == old(queue)[0] && queue == old(queue)[1..]
      ensures log.arrived == old(log.arrived) && log.dropped == old(log.dropped)
    {
      LeaveKeepsOrdered(queue, log, true);
      TakeBegins(crypto, firstKeys, log.taken, queue[0], Out());
      hide WithinPage, AtPageEnd, Ordered;
      page := queue[0];
      queue := queue[1..];
      active, nextIndex, visible := true, 0, [];
      log := log.(taken := log.taken + [page], fates := log.fates + [true]);
    }

    /** One time slice: at least one message to show if there is one, then up to `extra` more. */
    method RunMessagePageSlice(extra: nat)
      requires Valid()
      modifies this
      ensures Valid() && log.arrived == old(log.arrived) && log.dropped == old(log.dropped)
      ensures queue == (if old(active) || old(queue) == [] then old(queue) else old(queue)[1..])
      ensures old(active) && active ==> page == old(page) && nextIndex > old(nextIndex)
      ensures active ==> nextIndex < |page.messages|
      ensures !old(active) && active ==> nextIndex > 0
      ensures active ==> Handled(page, nextIndex) - Handled(page, if old(active) then old(nextIndex) else 0) == extra + 1
    {
      hide WithinPage, AtPageEnd, Ordered, Process;
      if !active {
        if queue == [] {
          return;
        }
        TakePage();
      }
      ProcessMessages(extra);
      if nextIndex >= |page.messages| {
        FinishPage();
      }
    }

    /** One message; `shown` tells whether it counts against the slice's budget. */
    method ProcessMessage(m: Message, toStore: seq<Message>) returns (stored: seq<Message>, shown: bool)
      modifies this`visible, this`keys
      ensures Progress(keys, visible, stored)
           == Process(crypto, page.fromServer, Progress(old(keys), old(visible), toStore), m)
      ensures shown <==> !(page.fromServer && m.isDistribution)
    {
      stored := toStore;
      if page.fromServer && m.isDistribution {
        keys := crypto.install(keys, m);
        return stored, false;
      }
      if page.fromServer {
        var plain := crypto.decrypted(keys, m);
        keys := crypto.keysAfter(keys, m);
        stored := stored + [plain];
        visible := visible + [crypto.stripped(plain)];
      } else {
        visible := visible + [crypto.stripped(crypto.decryptedRow(m))];
      }
      return stored, true;
    }

    /** The slice's loop, and the batch it hands to the store. */
    method ProcessMessages(extra: nat)
      requires Valid() && active
      modifies this`nextIndex, this`visible, this`keys, this`batches
      ensures Valid()
      ensures old(nextIndex) <= nextIndex <= |page.messages|
      ensures nextIndex > old(nextIndex) || nextIndex == |page.messages|
      // the budget is used up exactly when the page is not finished
      ensures var spent := Handled(page, nextIndex) - Handled(page, old(nextIndex));
              spent <= extra + 1 && (nextIndex < |page.messages| ==> spent == extra + 1)
    {
      hide WithinPage, AtPageEnd, Ordered, Process;
      ghost var taken, k0, c := log.taken, firstKeys, crypto;
      var p, start := page, nextIndex;
      var toStore: seq<Message> := [];
      var shownHere := 0;
      IndexInPage(c, k0, taken, Job(p, nextIndex, visible), toStore, Output(keys, emitted, batches));
      while nextIndex < |p.messages| && shownHere <= extra
        invariant start <= nextIndex <= |p.messages| && (shownHere > 0 ==> nextIndex > start)
        invariant shownHere == Handled(p, nextIndex) - Handled(p, start) <= extra + 1
        invariant WithinPage(c, k0, taken, Job(p, nextIndex, visible), toStore, Output(keys, emitted, batches))
        decreases |p.messages| - nextIndex
      {
        MessageAdvances(c, k0, taken, Job(p, nextIndex, visible), toStore, Output(keys, emitted, batches));
        var m := p.messages[nextIndex];
        nextIndex := nextIndex + 1;
        var shown: bool;
        toStore, shown := ProcessMessage(m, toStore);
        if shown {
          shownHere := shownHere + 1;
        }
      }
      BatchHandedOn(c, k0, taken, Job(p, nextIndex, visible), toStore, Output(keys, emitted, batches));
      if toStore != [] {
        batches := batches + [toStore];
      }
    }

    method FinishPage()
      requires Valid() && active && nextIndex == |page.messages|
      modifies this`active, this`emitted, this`visible, this`nextIndex
      ensures Valid() && !active
    {
      PageEnds(crypto, firstKeys, log.taken, Job(page, nextIndex, visible), Out());
      hide WithinPage, AtPageEnd, Ordered;
      if page.messages == [] || visible != [] {
        emitted := emitted + [Emission(page.conv, visible, page.hasMore)];
      }
      active, visible, nextIndex := false, [], 0;
    }
  }

  /** With this fate for each page, those taken up, processed whole, give this outcome. */
  ghost predicate Shows(c: Crypto, firstKeys: Keys, pages: seq<Page>, fates: seq<bool>, outcome: Outcome) {
    |fates| == |pages| && AllPages(c, firstKeys, Split(pages, fates).0) == outcome
  }

  lemma TakenUp(c: Crypto, firstKeys: Keys, log: Log, out: Output)
    requires Ordered([], log) && AtPageEnd(c, firstKeys, log.taken, out)
    ensures Shows(c, firstKeys, log.arrived, log.fates, Outcome(out.keys, out.emitted, Joined(out.batches)))
  {
    assert log.arrived[..|log.fates|] == log.arrived;
  }

  /**
   Pages arriving between slices, any number at a time, and slices of any budget: every page is taken
   up or dropped in the order of arrival, and for those taken up the view, the store and the keys get
   what processing them whole gives. An idle pump waits for the next page.
   */
  method ShowPages(c: Crypto, firstKeys: Keys, pages: seq<Page>, arrivals: nat -> nat, budget: nat -> nat)
    returns (emitted: seq<Emission>, batches: seq<seq<Message>>, keys: Keys)
    ensures exists fates :: Shows(c, firstKeys, pages, fates, Outcome(keys, emitted, Joined(batches)))
    ensures |pages| <= MAX_QUEUED_PAGES ==> AllPages(c, firstKeys, pages) == Outcome(keys, emitted, Joined(batches))
  {
    hide WithinPage, Ordered, AllPages, Shown, Joined;
    var pump := new MessagePagePump(c, firstKeys);
    var next, slice := 0, 0;
    while next < |pages| || pump.active || pump.queue != []
      invariant fresh(pump) && pump.crypto == c && pump.firstKeys == firstKeys && pump.Valid()
      invariant 0 <= next <= |pages| && pump.log.arrived == pages[..next]
      invariant |pages| <= MAX_QUEUED_PAGES ==> pump.log.dropped == []
      invariant pump.active ==> pump.nextIndex < |pump.page.messages|
      decreases |pages| - next, |pump.queue|, if pump.active then 1 + |pump.page.messages| - pump.nextIndex else 0
    {
      var wanted := arrivals(slice) + if !pump.active && pump.queue == [] then 1 else 0;
      next := Arrive(pump, pages, next, wanted);
      pump.RunMessagePageSlice(budget(slice));
      slice := slice + 1;
    }
    assert pages[..next] == pages;
    if |pages| <= MAX_QUEUED_PAGES {
      EverythingTaken(pump.log);
    }
    TakenUp(c, firstKeys, pump.log, pump.Out());
    return pump.emitted, pump.batches, pump.keys;
  }

  /** The next pages arrive at the pump, `wanted` of them while there are any. */
  method Arrive(pump: MessagePagePump, pages: seq<Page>, first: nat, wanted: nat) returns (next: nat)
    requires first <= |pages| && pump.Valid() && pump.log.arrived == pages[..first]
    requires |pages| <= MAX_QUEUED_PAGES ==> pump.log.dropped == []
    modifies pump`queue, pump`log
    ensures first <= next <= |pages| && pump.Valid() && pump.log.arrived == pages[..next]
    ensures |pages| <= MAX_QUEUED_PAGES ==> pump.log.dropped == []
    ensures next == first ==> pump.queue == old(pump.queue)
    ensures wanted > 0 && first < |pages| ==> next > first
  {
    hide WithinPage, AtPageEnd, Ordered;
    next := first;
    var left := wanted;
    while left > 0 && next < |pages|
      invariant first <= next <= |pages| && pump.Valid() && pump.log.arrived == pages[..next]
      invariant |pages| <= MAX_QUEUED_PAGES ==> pump.log.dropped == []
      invariant if next == first then pump.queue == old(pump.queue) && left == wanted else true
    {
      WaitingHaveArrived(pump.queue, pump.log);
      pump.EnqueueMessagePage(pages[next]);
      next, left := next + 1, left - 1;
    }
  }

  lemma WaitingHaveArrived(queue: seq<Page>, log: Log)
    requires Ordered(queue, log)
    ensures |queue| <= |log.arrived|
  {
  }

  lemma EverythingTaken(log: Log)
    requires Ordered([], log) && log.dropped == []
    ensures log.taken == log.arrived
  {
    assert log.arrived[..|log.fates|] == log.arrived;
    SplitAllTaken(log.arrived, log.fates);
  }

  lemma {:induction false} SplitAllTaken(pages: seq<Page>, fates: seq<bool>)
    requires |pages| == |fates| && Split(pages, fates).1 == []
    ensures Split(pages, fates).0 == pages
  {
    if pages != [] {
      SplitAllTaken(pages[..|pages| - 1], fates[..|pages| - 1]);
    }
  }

  /** Every page that arrived is waiting, was taken up, or was dropped. */
  lemma NoPageVanishes(queue: seq<Page>, log: Log)
    requires Ordered(queue, log)
    ensures |log.taken| + |log.dropped| + |queue| == |log.arrived|
    ensures forall p :: p in log.taken || p in log.dropped || p in queue ==> p in log.arrived
  {
    SplitSizes(log.arrived[..|log.fates|], log.fates);
    assert log.arrived == log.arrived[..|log.fates|] + log.arrived[|log.fates|..];
  }

  lemma {:induction false} SplitSizes(pages: seq<Page>, fates: seq<bool>)
    requires |pages| == |fates|
    ensures var (yes, no) := Split(pages, fates);
            |yes| + |no| == |pages| && (forall p :: p in yes || p in no <==> p in pages)
  {
    if pages != [] {
      var last := |pages| - 1;
      SplitSizes(pages[..last], fates[..last]);
      assert pages == pages[..last] + [pages[last]];
    }
  }
}
