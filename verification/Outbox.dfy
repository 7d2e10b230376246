/**
 The client's outbox against the server's idempotent store, over connections that can drop at any
 point. Every database statement of the server is a step of its own, so two requests for one
 message, one of them from a connection already lost, can interleave anywhere.

 `World` is one client device with the calls it has made and the rows the server keeps for it;
 `Step` is one client callback or one server statement. The record fields say which messages were
 confirmed, failed or lost. A message is identified by its client message id, never reused.
 */
module Outbox {
  import opened Wrappers

  type User = int
  type Key = int
  type Request = int

  datatype Target = Private(peer: User) | Group(conv: int)
  datatype Item = Item(key: Key, author: User, target: Target, file: bool)

  /** Deterministic: permission denied, conversation not found, invalid request. */
  datatype Code = Ok | Deterministic | Transient
  datatype Phase = Sent | LookedUp | Inserting | Conflict | Answered(code: Code)
  datatype Call = Call(sender: User, key: Key, phase: Phase)
  datatype Row = Row(sender: User, key: Key)

  /** What the client can do about a group now: encrypt, wait, or ask for the members' keys. */
  datatype GroupKeyState = Ready | Waiting | Unknown

  datatype World = World(
    user: Option<User>,
    online: bool,
    outbox: seq<Item>,
    disk: map<User, seq<Item>>, // one store per account
    inFlight: map<Request, Key>,
    nextKey: Key,
    nextRequest: Request,
    calls: map<Request, Call>,
    rows: seq<Row>,
    // the record
    authors: map<Key, User>,    // who composed a message
    texts: set<Key>,            // messages without a file
    stored: set<Row>,           // rows that were ever inserted
    confirmed: map<Key, User>,  // messages that left the outbox as sent, and by whom
    failed: set<Key>,           // messages that left it as failed
    unsaved: set<Key>,          // texts that were not, or are no longer, on disk
    lost: set<Key>              // texts that vanished without either
  )

  function Initial(): World {
    World(None, false, [], map[], map[], 1, 1, map[], [], map[], {}, {}, map[], {}, {}, {})
  }

  function DiskOf(w: World, u: User): seq<Item> {
    if u in w.disk then w.disk[u] else []
  }

  function Keys(items: seq<Item>): set<Key> {
    set item <- items :: item.key
  }

  /** The items whose keys are not in `gone`. */
  function Keep(items: seq<Item>, gone: set<Key>): seq<Item> {
    if items == [] then []
    else
      var last := items[|items| - 1];
      Keep(items[..|items| - 1], gone) + if last.key in gone then [] else [last]
  }

  // ---- Client ----

  /** Takes messages out of the outbox in memory and in the open store. */
  function Remove(w: World, gone: set<Key>): World {
    w.(outbox := Keep(w.outbox, gone),
       disk := if w.user.Some? then w.disk[w.user.value := Keep(DiskOf(w, w.user.value), gone)] else w.disk)
  }

  function Compose(w: World, target: Target, file: bool, saved: bool): World {
    if w.user.None? then w
    else
      var u := w.user.value;
      var item := Item(w.nextKey, u, target, file);
      w.(outbox := w.outbox + [item],
         disk := if !file && saved then w.disk[u := DiskOf(w, u) + [item]] else w.disk,
         unsaved := if !file && !saved then w.unsaved + {w.nextKey} else w.unsaved,
         texts := if file then w.texts else w.texts + {w.nextKey},
         authors := w.authors[w.nextKey := u],
         nextKey := w.nextKey + 1)
  }

  function Transmit(w: World, k: Key): World
    requires w.user.Some?
  {
    w.(inFlight := w.inFlight[w.nextRequest := k],
       calls := w.calls[w.nextRequest := Call(w.user.value, k, Sent)],
       nextRequest := w.nextRequest + 1)
  }

  /** Group messages from position i on; `busy` was in flight when the flush began. */
  function FlushFrom(w: World, i: nat, busy: set<Key>, keys: int -> GroupKeyState): World
    requires w.user.Some?
    decreases |w.outbox| - i
  {
    if i >= |w.outbox| then w
    else
      var item := w.outbox[i];
      if item.target.Private? || item.key in busy then FlushFrom(w, i + 1, busy, keys)
      else match keys(item.target.conv)
        case Ready => FlushFrom(Transmit(w, item.key), i + 1, busy, keys)
        case Waiting => FlushFrom(w, i + 1, busy, keys)
        case Unknown => w // asks for the group's keys; the answer flushes again
  }

  function Flush(w: World, keys: int -> GroupKeyState): World {
    if !w.online || w.user.None? then w else FlushFrom(w, 0, w.inFlight.Values, keys)
  }

  /** Position of the first private message for `peer` from i on that is not in flight. */
  function FirstFor(items: seq<Item>, peer: User, busy: set<Key>, i: nat): nat
    decreases |items| - i
  {
    if i >= |items| || (items[i].target == Private(peer) && items[i].key !in busy) then i
    else FirstFor(items, peer, busy, i + 1)
  }

  /** The peer's keys have arrived: its next message is encrypted and sent, or fails. */
  function KeysArrived(w: World, peer: User, encrypts: bool): World {
    if !w.online || w.user.None? then w
    else
      var i := FirstFor(w.outbox, peer, w.inFlight.Values, 0);
      if i >= |w.outbox| then w
      else if encrypts then Transmit(w, w.outbox[i].key)
      else Remove(w, {w.outbox[i].key}).(failed := w.failed + {w.outbox[i].key})
  }

  function KeysFor(items: seq<Item>, peer: User): set<Key> {
    set item <- items | item.target == Private(peer) :: item.key
  }

  /** The peer is refused for good: all its messages fail. */
  function PeerRefused(w: World, peer: User): World {
    var gone := KeysFor(w.outbox, peer);
    Remove(w, gone).(failed := w.failed + gone)
  }

  /** The response to a send: confirmed, failed for good (group messages only), or kept for a retry. */
  function Receive(w: World, r: Request, code: Code): World
    requires r in w.inFlight && r in w.calls
  {
    var k := w.inFlight[r];
    var t := w.(inFlight := w.inFlight - {r});
    match code
    case Ok => Remove(t, {k}).(confirmed := w.confirmed[k := w.calls[r].sender])
    case Deterministic =>
      if exists item <- w.outbox :: item.key == k && item.target.Group?
      then Remove(t, {k}).(failed := w.failed + {k})
      else t
    case Transient => t
  }

  /** The account's stored messages join those in memory. */
  function Login(w: World, u: User): World {
    w.(user := Some(u), online := true, outbox := w.outbox + Keep(DiskOf(w, u), Keys(w.outbox)))
  }

  /** Logging out empties the account's store, but neither the outbox in memory nor the requests in flight. */
  function Logout(w: World): World {
    if w.user.None? then w
    else
      var u := w.user.value;
      w.(user := None, online := false, disk := w.disk[u := []], unsaved := w.unsaved + Keys(DiskOf(w, u)))
  }

  function KeysOfGroup(items: seq<Item>, conv: int): set<Key> {
    set item <- items | item.target == Group(conv) :: item.key
  }

  /** Purging a group removes its waiting messages from the open store, not from memory. */
  function PurgeGroup(w: World, conv: int): World {
    if w.user.None? then w
    else
      var u := w.user.value;
      var gone := KeysOfGroup(DiskOf(w, u), conv);
      w.(disk := w.disk[u := Keep(DiskOf(w, u), gone)], unsaved := w.unsaved + gone)
  }

  function OnlyInMemory(w: World): set<Key> {
    set item <- w.outbox | !item.file && item !in DiskOf(w, item.author) :: item.key
  }

  /** The program ends and is started again. */
  function Restart(w: World): World {
    w.(user := None, online := false, outbox := [], inFlight := map[], lost := w.lost + OnlyInMemory(w))
  }

  // ---- Server ----

  function Exists(w: World, r: Request): bool
    requires r in w.calls
  {
    Row(w.calls[r].sender, w.calls[r].key) in w.rows
  }

  function Advance(w: World, r: Request, phase: Phase): World
    requires r in w.calls
  {
    w.(calls := w.calls[r := w.calls[r].(phase := phase)])
  }

  /** INSERT under the unique index on (sender, device, client message id). */
  function Insert(w: World, r: Request, works: bool): World
    requires r in w.calls
  {
    if !works || Exists(w, r) then Advance(w, r, Conflict)
    else
      var row := Row(w.calls[r].sender, w.calls[r].key);
      Advance(w, r, Answered(Ok)).(rows := w.rows + [row], stored := w.stored + {row})
  }

  function KeepRows(rows: seq<Row>, gone: set<Row>): seq<Row> {
    if rows == [] then []
    else
      var last := rows[|rows| - 1];
      KeepRows(rows[..|rows| - 1], gone) + if last in gone then [] else [last]
  }

  // ---- Runs ----

  datatype Event =
    | Composed(target: Target, file: bool, saved: bool)
    | Flushed(keys: int -> GroupKeyState)
    | PeerKeysArrived(peer: User, encrypts: bool)
    | PeerRefusedForGood(peer: User)
    | ResponseReceived(r: Request)
    | OwnMessageSynced(k: Key)
    | LoggedIn(u: User)              // nobody's store is open, or this user's
    | AccountSwitched(u: User)       // another user's is: it is cleared and closed first
    | LoggedOut
    | GroupPurged(conv: int)         // left and cleared, or deleted: its rows leave the open store
    | Disconnected
    | Restarted
    // one statement of the handler of call r
    | FirstLookup(r: Request)
    | Refused(r: Request, code: Code)
    | SecondLookup(r: Request)
    | Inserted(r: Request, works: bool)
    | LastLookup(r: Request)
    | RowsDeleted(gone: set<Row>)

  predicate InPhase(w: World, r: Request, phase: Phase) {
    r in w.calls && w.calls[r].phase == phase
  }

  function Step(w: World, e: Event): World {
    match e
    case Composed(target, file, saved) => Compose(w, target, file, saved)
    case Flushed(keys) => Flush(w, keys)
    case PeerKeysArrived(peer, encrypts) => KeysArrived(w, peer, encrypts)
    case PeerRefusedForGood(peer) => if w.online then PeerRefused(w, peer) else w
    case ResponseReceived(r) =>
      if r in w.inFlight && r in w.calls && w.calls[r].phase.Answered? then Receive(w, r, w.calls[r].phase.code) else w
    case OwnMessageSynced(k) =>
      if w.online && w.user.Some? && Row(w.user.value, k) in w.stored
      then Remove(w, {k}).(confirmed := w.confirmed[k := w.user.value]) else w
    case LoggedIn(u) => if w.user in {None, Some(u)} then Login(w, u) else w
    case AccountSwitched(u) => if w.user in {None, Some(u)} then w else Login(Logout(w), u)
    case LoggedOut => Logout(w)
    case GroupPurged(conv) => PurgeGroup(w, conv)
    case Disconnected => w.(online := false, inFlight := map[])
    case Restarted => Restart(w)
    case FirstLookup(r) =>
      if InPhase(w, r, Sent) then Advance(w, r, if Exists(w, r) then Answered(Ok) else LookedUp) else w
    case Refused(r, code) =>
      if code != Ok && (InPhase(w, r, Sent) || InPhase(w, r, LookedUp) || InPhase(w, r, Inserting))
      then Advance(w, r, Answered(code)) else w
    case SecondLookup(r) =>
      if InPhase(w, r, LookedUp) then Advance(w, r, if Exists(w, r) then Answered(Ok) else Inserting) else w
    case Inserted(r, works) =>
      if InPhase(w, r, Inserting) then Insert(w, r, works) else w
    case LastLookup(r) =>
      if InPhase(w, r, Conflict) then Advance(w, r, Answered(if Exists(w, r) then Ok else Transient)) else w
    case RowsDeleted(gone) => w.(rows := KeepRows(w.rows, gone))
  }

  function Run(es: seq<Event>): World {
    if es == [] then Initial() else Step(Run(es[..|es| - 1]), es[|es| - 1])
  }

  // ---- Lists ----

  predicate DistinctKeys(items: seq<Item>) {
    forall i, j :: 0 <= i < j < |items| ==> items[i].key != items[j].key
  }

  lemma {:induction false} KeepMembers(items: seq<Item>, gone: set<Key>)
    ensures forall item :: item in Keep(items, gone) <==> item in items && item.key !in gone
    ensures DistinctKeys(items) ==> DistinctKeys(Keep(items, gone))
  {
    if items != [] {
      var front, last := items[..|items| - 1], items[|items| - 1];
      KeepMembers(front, gone);
      assert items == front + [last];
      if DistinctKeys(items) {
        forall i | 0 <= i < |Keep(front, gone)|
          ensures Keep(front, gone)[i].key != last.key
        {
          assert Keep(front, gone)[i] in front;
        }
      }
    }
  }

  lemma {:induction false} KeepRowsMembers(rows: seq<Row>, gone: set<Row>)
    ensures forall row :: row in KeepRows(rows, gone) <==> row in rows && row !in gone
    ensures (forall i, j :: 0 <= i < j < |rows| ==> rows[i] != rows[j]) ==>
              forall i, j :: 0 <= i < j < |KeepRows(rows, gone)| ==> KeepRows(rows, gone)[i] != KeepRows(rows, gone)[j]
  {
    if rows != [] {
      var front, last := rows[..|rows| - 1], rows[|rows| - 1];
      KeepRowsMembers(front, gone);
      assert rows == front + [last];
      forall i | 0 <= i < |KeepRows(front, gone)|
        ensures KeepRows(front, gone)[i] in front
      {
        assert KeepRows(front, gone)[i] in KeepRows(front, gone);
      }
    }
  }

  // ---- At most one row ----

  /** The server's side: rows are unique, and an answer "sent" is true. */
  ghost predicate RowsSound(w: World) {
    && (forall i, j :: 0 <= i < j < |w.rows| ==> w.rows[i] != w.rows[j])
    && (forall row :: row in w.rows ==> row in w.stored)
    && (forall r :: r in w.calls && w.calls[r].phase == Answered(Ok) ==> Row(w.calls[r].sender, w.calls[r].key) in w.stored)
    && (forall k :: k in w.confirmed ==> Row(w.confirmed[k], k) in w.stored)
  }

  /** Requests in flight are calls made for distinct messages. */
  ghost predicate FlightSound(w: World) {
    && (forall r :: r in w.inFlight ==> r in w.calls && w.calls[r].key == w.inFlight[r])
    && (forall r :: r in w.calls ==> r < w.nextRequest)
    && (forall r, q :: r in w.inFlight && q in w.inFlight && r != q ==> w.inFlight[r] != w.inFlight[q])
    && DistinctKeys(w.outbox)
    && (forall item <- w.outbox :: item.key < w.nextKey)
  }

  /** Transmitting changes only calls and requests; new calls are the user's, for messages of the outbox. */
  ghost predicate Transmitted(w: World, t: World) {
    && t == w.(inFlight := t.inFlight, calls := t.calls, nextRequest := t.nextRequest)
    && (forall r :: r in w.calls ==> r in t.calls && t.calls[r] == w.calls[r])
    && (forall r :: r in t.calls && r !in w.calls ==>
          && t.calls[r].phase == Sent && w.user == Some(t.calls[r].sender)
          && exists item <- w.outbox :: item.key == t.calls[r].key)
  }

  lemma TransmitOne(w: World, item: Item)
    requires FlightSound(w) && w.user.Some? && item in w.outbox
    requires forall r :: r in w.inFlight ==> w.inFlight[r] != item.key
    ensures FlightSound(Transmit(w, item.key)) && Transmitted(w, Transmit(w, item.key))
  {
  }

  lemma TransmittedItself(w: World)
    ensures Transmitted(w, w)
  {
  }

  lemma TransmittedOn(w: World, item: Item, t: World)
    requires item in w.outbox && w.user.Some? && Transmitted(Transmit(w, item.key), t)
    requires w.nextRequest !in w.calls
    ensures Transmitted(w, t)
  {
  }

  /** Everything in flight was so before the flush, or has been passed by it. */
  predicate PassedOrBusy(w: World, i: nat, busy: set<Key>) {
    forall r :: r in w.inFlight ==>
      w.inFlight[r] in busy || exists j :: 0 <= j < i && j < |w.outbox| && w.outbox[j].key == w.inFlight[r]
  }

  lemma PassOne(w: World, i: nat, busy: set<Key>)
    requires PassedOrBusy(w, i, busy) && w.user.Some?
    ensures PassedOrBusy(w, i + 1, busy)
    ensures i < |w.outbox| ==> PassedOrBusy(Transmit(w, w.outbox[i].key), i + 1, busy)
  {
  }

  lemma NotInFlight(w: World, i: nat, busy: set<Key>)
    requires FlightSound(w) && PassedOrBusy(w, i, busy) && i < |w.outbox| && w.outbox[i].key !in busy
    ensures forall r :: r in w.inFlight ==> w.inFlight[r] != w.outbox[i].key
    ensures w.nextRequest !in w.calls
  {
  }

  lemma {:induction false} FlushFromSound(w: World, i: nat, busy: set<Key>, keys: int -> GroupKeyState)
    requires FlightSound(w) && w.user.Some? && PassedOrBusy(w, i, busy)
    ensures FlightSound(FlushFrom(w, i, busy, keys)) && Transmitted(w, FlushFrom(w, i, busy, keys))
    decreases |w.outbox| - i
  {
    hide FlightSound, Transmitted, PassedOrBusy;
    TransmittedItself(w);
    if i < |w.outbox| {
      var item := w.outbox[i];
      PassOne(w, i, busy);
      if item.target.Group? && item.key !in busy && keys(item.target.conv) == Ready {
        NotInFlight(w, i, busy);
        TransmitOne(w, item);
        FlushFromSound(Transmit(w, item.key), i + 1, busy, keys);
        TransmittedOn(w, item, FlushFrom(Transmit(w, item.key), i + 1, busy, keys));
      } else if item.target.Private? || item.key in busy || keys(item.target.conv) == Waiting {
        FlushFromSound(w, i + 1, busy, keys);
      }
    }
  }

  lemma {:induction false} FirstForFinds(items: seq<Item>, peer: User, busy: set<Key>, i: nat)
    requires i <= |items|
    ensures var k := FirstFor(items, peer, busy, i);
            && i <= k <= |items|
            && (k < |items| ==> items[k].target == Private(peer) && items[k].key !in busy)
            && (forall j :: i <= j < k ==> !(items[j].target == Private(peer) && items[j].key !in busy))
    decreases |items| - i
  {
    if i < |items| && !(items[i].target == Private(peer) && items[i].key !in busy) {
      FirstForFinds(items, peer, busy, i + 1);
    }
  }

  lemma FlushSound(w: World, keys: int -> GroupKeyState)
    requires FlightSound(w)
    ensures FlightSound(Flush(w, keys)) && Transmitted(w, Flush(w, keys))
  {
    if w.online && w.user.Some? {
      FlushFromSound(w, 0, w.inFlight.Values, keys);
    }
  }

  lemma KeysArrivedSends(w: World, peer: User)
    requires FlightSound(w)
    ensures FlightSound(KeysArrived(w, peer, true)) && Transmitted(w, KeysArrived(w, peer, true))
  {
    if w.online && w.user.Some? {
      FirstForFinds(w.outbox, peer, w.inFlight.Values, 0);
      var i := FirstFor(w.outbox, peer, w.inFlight.Values, 0);
      if i < |w.outbox| {
        assert w.outbox[i] in w.outbox;
        forall r | r in w.inFlight
          ensures w.inFlight[r] != w.outbox[i].key
        {
          assert w.inFlight[r] in w.inFlight.Values;
        }
        TransmitOne(w, w.outbox[i]);
      }
    }
  }

  lemma RemoveKeepsFlight(w: World, gone: set<Key>)
    requires FlightSound(w)
    ensures FlightSound(Remove(w, gone))
  {
    KeepMembers(w.outbox, gone);
  }

  /** The stores hold their own account's texts; a text in memory is on disk or known not to be. */
  predicate StoreSound(w: World, u: User) {
    && DistinctKeys(DiskOf(w, u))
    && (forall item <- DiskOf(w, u) :: item.author == u && !item.file && item.key in w.texts && item.key in w.authors && w.authors[item.key] == u)
    && (w.user == Some(u) ==> forall item <- DiskOf(w, u) :: item.key in Keys(w.outbox))
  }

  predicate ItemSound(w: World, item: Item) {
    && item.key in w.authors && w.authors[item.key] == item.author
    && (item.key in w.texts <==> !item.file)
    && (item.file || item in DiskOf(w, item.author) || item.key in w.unsaved)
  }

  /** A composed text is somewhere: waiting, or its fate was recorded. */
  predicate TextSound(w: World, k: Key) {
    k in w.texts ==>
      && k in w.authors
      && (k in Keys(w.outbox) || k in Keys(DiskOf(w, w.authors[k])) || k in w.confirmed || k in w.failed || k in w.lost)
  }

  ghost predicate Accounted(w: World) {
    && (forall u :: StoreSound(w, u))
    && (forall item <- w.outbox :: ItemSound(w, item))
    && (forall k :: TextSound(w, k))
    && (forall k :: k in w.authors ==> k < w.nextKey)
    && w.lost <= w.unsaved
  }

  /** What composing adds: one fresh item, at the end of memory and, if saved, of its author's store. */
  predicate Adds(w: World, t: World, item: Item, saved: bool) {
    && w.user == Some(item.author) == t.user && item.key == w.nextKey
    && t.outbox == w.outbox + [item]
    && t.disk == (if !item.file && saved then w.disk[item.author := DiskOf(w, item.author) + [item]] else w.disk)
    && t.authors == w.authors[item.key := item.author]
    && t.texts == (if item.file then w.texts else w.texts + {item.key})
    && t.unsaved == (if item.file || saved then w.unsaved else w.unsaved + {item.key})
    && t.confirmed == w.confirmed && t.failed == w.failed && t.lost == w.lost && t.nextKey == w.nextKey + 1
    && t.inFlight == w.inFlight && t.calls == w.calls && t.nextRequest == w.nextRequest
  }

  lemma ComposeAdds(w: World, target: Target, file: bool, saved: bool)
    ensures w.user.None? ==> Compose(w, target, file, saved) == w
    ensures w.user.Some? ==> Adds(w, Compose(w, target, file, saved), Item(w.nextKey, w.user.value, target, file), saved)
  {
  }

  lemma AddedKeys(items: seq<Item>, item: Item)
    ensures Keys(items + [item]) == Keys(items) + {item.key}
  {
    assert forall i <- items :: i in items + [item];
    assert item in items + [item];
  }

  lemma AddKeepsFlight(w: World, t: World, item: Item, saved: bool)
    requires FlightSound(w) && Adds(w, t, item, saved)
    ensures FlightSound(t)
  {
    forall i | 0 <= i < |w.outbox|
      ensures w.outbox[i].key < item.key
    {
      assert w.outbox[i] in w.outbox;
    }
  }

  lemma AddKeepsStore(w: World, t: World, item: Item, saved: bool, u: User)
    requires StoreSound(w, u) && Adds(w, t, item, saved)
    requires forall k :: k in w.authors ==> k < w.nextKey
    ensures StoreSound(t, u)
  {
    hide Keys;
    AddedKeys(w.outbox, item);
    forall kept | kept in DiskOf(w, u)
      ensures kept.key != item.key
    {
      assert kept.key in w.authors;
    }
  }

  lemma AddKeepsText(w: World, t: World, item: Item, saved: bool, k: Key)
    requires TextSound(w, k) && Adds(w, t, item, saved)
    requires forall k :: k in w.authors ==> k < w.nextKey
    ensures TextSound(t, k)
  {
    hide Keys;
    AddedKeys(w.outbox, item);
    AddedKeys(DiskOf(w, item.author), item);
  }

  lemma AddKeepsItem(w: World, t: World, item: Item, saved: bool, kept: Item)
    requires Adds(w, t, item, saved) && kept in t.outbox
    requires kept in w.outbox ==> ItemSound(w, kept)
    requires forall k :: k in w.authors ==> k < w.nextKey
    requires TextSound(w, item.key)
    ensures ItemSound(t, kept)
  {
  }

  lemma ComposeKeepsAll(w: World, target: Target, file: bool, saved: bool)
    requires FlightSound(w) && Accounted(w)
    ensures FlightSound(Compose(w, target, file, saved)) && Accounted(Compose(w, target, file, saved))
  {
    hide Compose, Adds, FlightSound, StoreSound, TextSound, ItemSound;
    ComposeAdds(w, target, file, saved);
    var t := Compose(w, target, file, saved);
    if w.user.Some? {
      var item := Item(w.nextKey, w.user.value, target, file);
      AddKeepsFlight(w, t, item, saved);
      forall u
        ensures StoreSound(t, u)
      {
        AddKeepsStore(w, t, item, saved, u);
      }
      forall k
        ensures TextSound(t, k)
      {
        AddKeepsText(w, t, item, saved, k);
      }
      forall kept | kept in t.outbox
        ensures ItemSound(t, kept)
      {
        AddKeepsItem(w, t, item, saved, kept);
      }
      AddKeepsRest(w, t, item, saved);
    }
  }

  lemma AddKeepsRest(w: World, t: World, item: Item, saved: bool)
    requires Adds(w, t, item, saved) && w.lost <= w.unsaved && forall k :: k in w.authors ==> k < w.nextKey
    ensures t.lost <= t.unsaved && forall k :: k in t.authors ==> k < t.nextKey
  {
  }

  /** Removing messages whose fate is recorded by then. */
  lemma RemoveKeepsAccounts(w: World, gone: set<Key>, t: World)
    requires FlightSound(w) && Accounted(w)
    requires var r := Remove(w, gone); t == r.(confirmed := t.confirmed, failed := t.failed, inFlight := t.inFlight)
    requires forall k :: k in w.confirmed ==> k in t.confirmed
    requires w.failed <= t.failed
    requires forall k :: k in gone ==> k in t.confirmed || k in t.failed
    ensures Accounted(t)
  {
    KeepMembers(w.outbox, gone);
    forall u
      ensures StoreSound(t, u)
    {
      assert StoreSound(w, u);
      KeepMembers(DiskOf(w, u), gone);
      forall item | item in DiskOf(t, u) && w.user == Some(u)
        ensures item.key in Keys(t.outbox)
      {
        var same :| same in w.outbox && same.key == item.key;
        assert same in t.outbox;
      }
    }
    forall item | item in t.outbox
      ensures ItemSound(t, item)
    {
      assert ItemSound(w, item);
      KeepMembers(DiskOf(w, item.author), gone);
    }
    forall k
      ensures TextSound(t, k)
    {
      assert TextSound(w, k);
      if k in w.texts && k !in gone {
        if k in Keys(w.outbox) {
          var same :| same in w.outbox && same.key == k;
          assert same in t.outbox;
        } else if k in Keys(DiskOf(w, w.authors[k])) {
          var same :| same in DiskOf(w, w.authors[k]) && same.key == k;
          KeepMembers(DiskOf(w, w.authors[k]), gone);
          assert same in DiskOf(t, w.authors[k]);
        }
      }
    }
  }

  lemma LoginKeepsAll(w: World, u: User)
    requires FlightSound(w) && Accounted(w) && w.user in {None, Some(u)}
    ensures FlightSound(Login(w, u)) && Accounted(Login(w, u))
  {
    var t := Login(w, u);
    KeepMembers(DiskOf(w, u), Keys(w.outbox));
    assert StoreSound(w, u);
    var added := Keep(DiskOf(w, u), Keys(w.outbox));
    assert t.outbox == w.outbox + added;
    forall i, j | 0 <= i < |w.outbox| && 0 <= j < |added|
      ensures w.outbox[i].key != added[j].key
    {
      assert w.outbox[i] in w.outbox && added[j] in added;
    }
    forall item | item in DiskOf(w, u)
      ensures item.key in Keys(t.outbox)
    {
      if item.key in Keys(w.outbox) {
        var same :| same in w.outbox && same.key == item.key;
        assert same in t.outbox;
      } else {
        assert item in added && item in t.outbox;
      }
    }
    forall v
      ensures StoreSound(t, v)
    {
      assert StoreSound(w, v);
    }
    forall item | item in t.outbox
      ensures ItemSound(t, item)
    {
      if item in w.outbox {
        assert ItemSound(w, item);
      } else {
        assert item in added;
      }
    }
    forall k
      ensures TextSound(t, k)
    {
      assert TextSound(w, k);
      if k in Keys(w.outbox) {
        var same :| same in w.outbox && same.key == k;
        assert same in t.outbox;
      }
    }
  }

  lemma LogoutKeepsAll(w: World)
    requires FlightSound(w) && Accounted(w)
    ensures FlightSound(Logout(w)) && Accounted(Logout(w))
  {
    var t := Logout(w);
    if w.user.Some? {
      var u := w.user.value;
      assert StoreSound(w, u);
      forall v
        ensures StoreSound(t, v)
      {
        assert StoreSound(w, v);
      }
      forall item | item in t.outbox
        ensures ItemSound(t, item)
      {
        assert ItemSound(w, item);
      }
      forall k
        ensures TextSound(t, k)
      {
        assert TextSound(w, k);
      }
    }
  }

  lemma SwitchKeepsAll(w: World, u: User)
    requires FlightSound(w) && Accounted(w)
    ensures FlightSound(Step(w, AccountSwitched(u))) && Accounted(Step(w, AccountSwitched(u)))
  {
    hide FlightSound, Accounted, Login;
    LogoutKeepsAll(w);
    if w.user !in {None, Some(u)} {
      assert Logout(w).user == None;
      LoginKeepsAll(Logout(w), u);
    }
  }

  lemma PurgeGroupKeepsAll(w: World, conv: int)
    requires FlightSound(w) && Accounted(w)
    ensures FlightSound(PurgeGroup(w, conv)) && Accounted(PurgeGroup(w, conv))
  {
    var t := PurgeGroup(w, conv);
    if w.user.Some? {
      var u := w.user.value;
      var gone := KeysOfGroup(DiskOf(w, u), conv);
      KeepMembers(DiskOf(w, u), gone);
      assert StoreSound(w, u);
      hide Keep;
      forall v
        ensures StoreSound(t, v)
      {
        assert StoreSound(w, v);
      }
      forall item | item in t.outbox
        ensures ItemSound(t, item)
      {
        assert ItemSound(w, item);
      }
      forall k
        ensures TextSound(t, k)
      {
        assert TextSound(w, k);
      }
    }
  }

  /** A restart keeps what is on disk and records the rest as lost. */
  lemma RestartKeepsAll(w: World)
    requires FlightSound(w) && Accounted(w)
    ensures FlightSound(Restart(w)) && Accounted(Restart(w))
  {
    var t := Restart(w);
    forall u
      ensures StoreSound(t, u)
    {
      assert StoreSound(w, u);
    }
    forall k
      ensures TextSound(t, k)
    {
      assert TextSound(w, k);
      if k in w.texts && k in Keys(w.outbox) {
        var item :| item in w.outbox && item.key == k;
        assert ItemSound(w, item);
        if item in DiskOf(w, item.author) {
          assert k in Keys(DiskOf(w, item.author));
        } else {
          assert k in OnlyInMemory(w);
        }
      }
    }
    forall k | k in OnlyInMemory(w)
      ensures k in w.unsaved
    {
      var item :| item in w.outbox && !item.file && item !in DiskOf(w, item.author) && item.key == k;
      assert ItemSound(w, item);
    }
  }

  /** Steps that leave messages and their record alone. */
  lemma SameAccounts(w: World, t: World)
    requires Accounted(w) && SameClient(w, t)
    ensures Accounted(t)
  {
    forall u
      ensures StoreSound(t, u)
    {
      assert StoreSound(w, u);
    }
    forall item | item in t.outbox
      ensures ItemSound(t, item)
    {
      assert ItemSound(w, item);
    }
    forall k
      ensures TextSound(t, k)
    {
      assert TextSound(w, k);
    }
  }

  lemma AdvanceKeepsFlight(w: World, r: Request)
    requires FlightSound(w) && r in w.calls
    ensures forall phase :: FlightSound(Advance(w, r, phase))
  {
  }

  lemma InsertKeepsFlight(w: World, r: Request, works: bool)
    requires FlightSound(w) && r in w.calls
    ensures FlightSound(Insert(w, r, works))
  {
  }

  predicate ByServer(e: Event) {
    e.FirstLookup? || e.Refused? || e.SecondLookup? || e.Inserted? || e.LastLookup? || e.RowsDeleted?
  }

  lemma ServerStepKeepsFlight(w: World, e: Event)
    requires FlightSound(w) && ByServer(e)
    ensures FlightSound(Step(w, e))
  {
    hide KeepRows, Insert, Advance;
    match e {
      case FirstLookup(r) => if r in w.calls { AdvanceKeepsFlight(w, r); }
      case Refused(r, _) => if r in w.calls { AdvanceKeepsFlight(w, r); }
      case SecondLookup(r) => if r in w.calls { AdvanceKeepsFlight(w, r); }
      case Inserted(r, works) => if r in w.calls { InsertKeepsFlight(w, r, works); }
      case LastLookup(r) => if r in w.calls { AdvanceKeepsFlight(w, r); }
      case RowsDeleted(_) =>
    }
  }

  lemma ReceiveKeepsFlight(w: World, r: Request, code: Code)
    requires FlightSound(w) && r in w.inFlight && r in w.calls
    ensures FlightSound(Receive(w, r, code))
  {
    hide Keep, DiskOf, DistinctKeys, FlightSound;
    var t := w.(inFlight := w.inFlight - {r});
    OneLessInFlight(w, r);
    RemoveKeepsFlight(t, {w.inFlight[r]});
    SameFlight(t, t.(confirmed := Receive(w, r, code).confirmed));
    var u := Remove(t, {w.inFlight[r]});
    SameFlight(u, u.(confirmed := Receive(w, r, code).confirmed));
    SameFlight(u, u.(failed := Receive(w, r, code).failed));
  }

  lemma OneLessInFlight(w: World, r: Request)
    requires FlightSound(w)
    ensures FlightSound(w.(inFlight := w.inFlight - {r}))
  {
  }

  lemma StepKeepsFlight(w: World, e: Event)
    requires FlightSound(w) && Accounted(w)
    ensures FlightSound(Step(w, e))
  {
    if ByServer(e) {
      ServerStepKeepsFlight(w, e);
      hide Step, FlightSound, Accounted;
    } else if e.ResponseReceived? {
      if e.r in w.inFlight && e.r in w.calls && w.calls[e.r].phase.Answered? {
        ReceiveKeepsFlight(w, e.r, w.calls[e.r].phase.code);
      }
      hide Receive, FlightSound, Accounted;
    } else {
      ClientStepKeepsFlight(w, e);
      hide Step, FlightSound, Accounted;
    }
  }

  lemma KeysArrivedKeepsFlight(w: World, peer: User, encrypts: bool)
    requires FlightSound(w)
    ensures FlightSound(KeysArrived(w, peer, encrypts))
  {
    hide Keep, FirstFor, FlightSound;
    var i := FirstFor(w.outbox, peer, w.inFlight.Values, 0);
    if encrypts {
      KeysArrivedSends(w, peer);
    } else if w.online && w.user.Some? && i < |w.outbox| {
      RemoveKeepsFlight(w, {w.outbox[i].key});
      SameFlight(Remove(w, {w.outbox[i].key}), KeysArrived(w, peer, encrypts));
    }
  }

  lemma SameFlight(w: World, t: World)
    requires FlightSound(w) && t.inFlight == w.inFlight && t.calls == w.calls && t.outbox == w.outbox
    requires t.nextKey == w.nextKey && t.nextRequest == w.nextRequest
    ensures FlightSound(t)
  {
  }

  lemma NoFlight(w: World)
    requires FlightSound(w)
    ensures FlightSound(w.(online := false, inFlight := map[]))
  {
  }

  lemma ClientStepKeepsFlight(w: World, e: Event)
    requires FlightSound(w) && Accounted(w) && !ByServer(e) && !e.ResponseReceived?
    ensures FlightSound(Step(w, e))
  {
    hide Flush, KeysArrived, Keep, KeysFor, Login, Logout, Compose, Restart, PurgeGroup, Accounted, FlightSound;
    match e {
      case Composed(target, file, saved) => ComposeKeepsAll(w, target, file, saved);
      case LoggedIn(u) => if w.user in {None, Some(u)} { LoginKeepsAll(w, u); }
      case LoggedOut => LogoutKeepsAll(w);
      case AccountSwitched(u) => SwitchKeepsAll(w, u);
      case GroupPurged(conv) => PurgeGroupKeepsAll(w, conv);
      case Flushed(keys) => FlushSound(w, keys);
      case PeerKeysArrived(peer, encrypts) => KeysArrivedKeepsFlight(w, peer, encrypts);
      case PeerRefusedForGood(peer) =>
        RemoveKeepsFlight(w, KeysFor(w.outbox, peer));
        SameFlight(Remove(w, KeysFor(w.outbox, peer)), PeerRefused(w, peer));
      case OwnMessageSynced(k) =>
        RemoveKeepsFlight(w, {k});
        SameFlight(Remove(w, {k}), Remove(w, {k}).(confirmed := Step(w, e).confirmed));
      case Disconnected => NoFlight(w);
      case Restarted => RestartKeepsAll(w);
    }
  }

  lemma ResponseKeepsAccounts(w: World, r: Request, code: Code)
    requires FlightSound(w) && Accounted(w) && r in w.inFlight && r in w.calls
    ensures Accounted(Receive(w, r, code))
  {
    var t := w.(inFlight := w.inFlight - {r});
    assert FlightSound(t);
    SameAccounts(w, t);
    hide Accounted, Remove;
    if code == Ok || (code == Deterministic && exists item <- w.outbox :: item.key == w.inFlight[r] && item.target.Group?) {
      RemoveKeepsAccounts(t, {w.inFlight[r]}, Receive(w, r, code));
    }
  }

  lemma ServerStepKeepsAccounts(w: World, e: Event)
    requires Accounted(w) && (ByServer(e) || e.Disconnected?)
    ensures Accounted(Step(w, e))
  {
    hide Step, Accounted, SameClient;
    ServerStepFrame(w, e);
    SameAccounts(w, Step(w, e));
  }

  lemma StepKeepsAccounts(w: World, e: Event)
    requires FlightSound(w) && Accounted(w)
    ensures Accounted(Step(w, e))
  {
    if ByServer(e) || e.Disconnected? {
      ServerStepKeepsAccounts(w, e);
      hide Step, FlightSound, Accounted;
    } else {
      ClientStepKeepsAccounts(w, e);
      hide Step, FlightSound, Accounted;
    }
  }

  lemma KeysArrivedKeepsAccounts(w: World, peer: User, encrypts: bool)
    requires FlightSound(w) && Accounted(w)
    ensures Accounted(KeysArrived(w, peer, encrypts))
  {
    hide Keep, FirstFor, FlightSound, Accounted;
    var i := FirstFor(w.outbox, peer, w.inFlight.Values, 0);
    if encrypts {
      KeysArrivedSends(w, peer);
      SameAccounts(w, KeysArrived(w, peer, true));
    } else if w.online && w.user.Some? && i < |w.outbox| {
      RemoveKeepsAccounts(w, {w.outbox[i].key}, KeysArrived(w, peer, false));
    }
  }

  lemma ClientStepKeepsAccounts(w: World, e: Event)
    requires FlightSound(w) && Accounted(w) && !ByServer(e) && !e.Disconnected?
    ensures Accounted(Step(w, e))
  {
    hide Flush, KeysArrived, Keep, KeysFor, Login, Logout, Restart, PurgeGroup, Compose, Accounted, FlightSound, Receive;
    match e {
      case Composed(target, file, saved) => ComposeKeepsAll(w, target, file, saved);
      case LoggedIn(u) => if w.user in {None, Some(u)} { LoginKeepsAll(w, u); }
      case LoggedOut => LogoutKeepsAll(w);
      case AccountSwitched(u) => SwitchKeepsAll(w, u);
      case GroupPurged(conv) => PurgeGroupKeepsAll(w, conv);
      case Restarted => RestartKeepsAll(w);
      case Flushed(keys) =>
        FlushSound(w, keys);
        SameAccounts(w, Flush(w, keys));
      case PeerKeysArrived(peer, encrypts) => KeysArrivedKeepsAccounts(w, peer, encrypts);
      case PeerRefusedForGood(peer) => if w.online { RemoveKeepsAccounts(w, KeysFor(w.outbox, peer), Step(w, e)); }
      case ResponseReceived(r) =>
        if r in w.inFlight && r in w.calls && w.calls[r].phase.Answered? {
          ResponseKeepsAccounts(w, r, w.calls[r].phase.code);
        }
      case OwnMessageSynced(k) =>
        if w.online && w.user.Some? && Row(w.user.value, k) in w.stored {
          RemoveKeepsAccounts(w, {k}, Step(w, e));
        }
    }
  }

  // ---- Server invariants ----

  lemma AdvanceKeepsRows(w: World, r: Request, phase: Phase)
    requires RowsSound(w) && r in w.calls
    requires phase == Answered(Ok) ==> Exists(w, r)
    ensures RowsSound(Advance(w, r, phase)) && Advance(w, r, phase).stored == w.stored
  {
  }

  lemma InsertKeepsRows(w: World, r: Request, works: bool)
    requires RowsSound(w) && r in w.calls
    ensures RowsSound(Insert(w, r, works)) && w.stored <= Insert(w, r, works).stored
  {
  }

  /** The client's steps change no row, and confirm only what is stored. */
  lemma ClientStepKeepsRows(w: World, t: World)
    requires RowsSound(w) && t.rows == w.rows && t.stored == w.stored
    requires forall r :: r in t.calls && t.calls[r].phase.Answered? ==> r in w.calls && t.calls[r] == w.calls[r]
    requires forall k :: k in t.confirmed ==> (k in w.confirmed && t.confirmed[k] == w.confirmed[k]) || Row(t.confirmed[k], k) in w.stored
    ensures RowsSound(t)
  {
  }

  lemma ServerStepKeepsRows(w: World, e: Event)
    requires RowsSound(w) && ByServer(e)
    ensures RowsSound(Step(w, e)) && w.stored <= Step(w, e).stored
  {
    hide KeepRows, Insert, Advance, RowsSound;
    match e {
      case FirstLookup(r) => if InPhase(w, r, Sent) { AdvanceKeepsRows(w, r, if Exists(w, r) then Answered(Ok) else LookedUp); }
      case Refused(r, code) => if code != Ok && r in w.calls { AdvanceKeepsRows(w, r, Answered(code)); }
      case SecondLookup(r) => if InPhase(w, r, LookedUp) { AdvanceKeepsRows(w, r, if Exists(w, r) then Answered(Ok) else Inserting); }
      case Inserted(r, works) => if InPhase(w, r, Inserting) { InsertKeepsRows(w, r, works); }
      case LastLookup(r) =>
        if InPhase(w, r, Conflict) {
          AdvanceKeepsRows(w, r, Answered(if Exists(w, r) then Ok else Transient));
        }
      case RowsDeleted(gone) => DeletionKeepsRows(w, gone);
    }
  }

  lemma DeletionKeepsRows(w: World, gone: set<Row>)
    requires RowsSound(w)
    ensures RowsSound(w.(rows := KeepRows(w.rows, gone)))
  {
    KeepRowsMembers(w.rows, gone);
  }

  lemma ReceiveKeepsRows(w: World, r: Request)
    requires RowsSound(w) && FlightSound(w) && r in w.inFlight && r in w.calls && w.calls[r].phase.Answered?
    ensures RowsSound(Receive(w, r, w.calls[r].phase.code)) && Receive(w, r, w.calls[r].phase.code).stored == w.stored
  {
    hide Keep, Keys, DiskOf, DistinctKeys;
    ClientStepKeepsRows(w, Receive(w, r, w.calls[r].phase.code));
  }

  /** The client's handlers but for replies and synced messages: nothing is sent, stored or confirmed. */
  predicate Quiet(w: World, t: World) {
    t.rows == w.rows && t.stored == w.stored && t.calls == w.calls && t.confirmed == w.confirmed
  }

  lemma ListsAreQuiet(w: World, target: Target, file: bool, saved: bool, peer: User, conv: int)
    ensures Quiet(w, Compose(w, target, file, saved)) && Quiet(w, PeerRefused(w, peer)) && Quiet(w, PurgeGroup(w, conv))
  {
    hide Keep, Keys, KeysFor, KeysOfGroup, DiskOf;
  }

  lemma SessionsAreQuiet(w: World, u: User)
    ensures Quiet(w, Login(w, u)) && Quiet(w, Logout(w)) && Quiet(w, Login(Logout(w), u)) && Quiet(w, Restart(w))
  {
    hide Keep, Keys, DiskOf, OnlyInMemory;
  }

  lemma QuietKeepsRows(w: World, t: World)
    requires RowsSound(w) && Quiet(w, t)
    ensures RowsSound(t) && t.stored == w.stored
  {
    hide RowsSound;
    ClientStepKeepsRows(w, t);
  }

  lemma SyncedKeepsRows(w: World, k: Key)
    requires RowsSound(w)
    ensures RowsSound(Step(w, OwnMessageSynced(k))) && Step(w, OwnMessageSynced(k)).stored == w.stored
  {
    hide RowsSound, Keep, DiskOf;
    ClientStepKeepsRows(w, Step(w, OwnMessageSynced(k)));
  }

  lemma StepKeepsRows(w: World, e: Event)
    requires RowsSound(w) && FlightSound(w)
    ensures RowsSound(Step(w, e)) && w.stored <= Step(w, e).stored
  {
    hide Flush, KeysArrived, PeerRefused, PurgeGroup, Compose, Login, Logout, Restart, Remove, Receive, Insert, Advance;
    hide KeepRows, RowsSound, FlightSound, Quiet;
    if ByServer(e) {
      ServerStepKeepsRows(w, e);
      hide Step;
    } else {
      match e {
        case Composed(target, file, saved) => ListsAreQuiet(w, target, file, saved, 0, 0); QuietKeepsRows(w, Step(w, e));
        case PeerRefusedForGood(peer) =>
          ListsAreQuiet(w, Private(0), false, false, peer, 0);
          if w.online { QuietKeepsRows(w, Step(w, e)); }
        case GroupPurged(conv) => ListsAreQuiet(w, Private(0), false, false, 0, conv); QuietKeepsRows(w, Step(w, e));
        case LoggedIn(u) =>
          SessionsAreQuiet(w, u);
          if w.user in {None, Some(u)} { QuietKeepsRows(w, Step(w, e)); }
        case AccountSwitched(u) =>
          SessionsAreQuiet(w, u);
          if w.user !in {None, Some(u)} { QuietKeepsRows(w, Step(w, e)); }
        case LoggedOut => SessionsAreQuiet(w, 0); QuietKeepsRows(w, Step(w, e));
        case Restarted => SessionsAreQuiet(w, 0); QuietKeepsRows(w, Step(w, e));
        case Flushed(keys) =>
          FlushSound(w, keys);
          ClientStepKeepsRows(w, Flush(w, keys));
        case PeerKeysArrived(peer, encrypts) => KeysArrivedKeepsRows(w, peer, encrypts);
        case ResponseReceived(r) =>
          if r in w.inFlight && r in w.calls && w.calls[r].phase.Answered? {
            ReceiveKeepsRows(w, r);
          }
        case OwnMessageSynced(k) => SyncedKeepsRows(w, k);
        case Disconnected => ClientStepKeepsRows(w, Step(w, e));
      }
    }
  }

  lemma KeysArrivedKeepsRows(w: World, peer: User, encrypts: bool)
    requires RowsSound(w) && FlightSound(w)
    ensures RowsSound(KeysArrived(w, peer, encrypts)) && KeysArrived(w, peer, encrypts).stored == w.stored
  {
    hide Keep, FirstFor, RowsSound, FlightSound;
    KeysArrivedSends(w, peer);
    ClientStepKeepsRows(w, KeysArrived(w, peer, encrypts));
  }

  /** All of it holds in every run. */
  lemma {:induction false} RunIsSound(es: seq<Event>)
    ensures RowsSound(Run(es)) && FlightSound(Run(es)) && Accounted(Run(es))
  {
    if es != [] {
      var w := Run(es[..|es| - 1]);
      RunIsSound(es[..|es| - 1]);
      hide Step, RowsSound, FlightSound, Accounted;
      StepKeepsRows(w, es[|es| - 1]);
      StepKeepsFlight(w, es[|es| - 1]);
      StepKeepsAccounts(w, es[|es| - 1]);
    }
  }

  // ---- Main results ----

  /** However requests for one message interleave: never two rows for one sender and client message id. */
  lemma AtMostOneRow(es: seq<Event>, i: nat, j: nat)
    requires i < j < |Run(es).rows|
    ensures Run(es).rows[i] != Run(es).rows[j]
  {
    RunIsSound(es);
  }

  /** A message that left the outbox as sent was stored; on one connection it is never in flight twice. */
  lemma SentMeansStored(es: seq<Event>)
    ensures var w := Run(es);
            && (forall k :: k in w.confirmed ==> Row(w.confirmed[k], k) in w.stored)
            && (forall r, q :: r in w.inFlight && q in w.inFlight && r != q ==> w.inFlight[r] != w.inFlight[q])
  {
    RunIsSound(es);
  }

  /** A text is waiting in memory or on disk, was sent, has failed, or is one of those recorded as lost. */
  lemma EveryTextAccountedFor(es: seq<Event>, k: Key)
    requires k in Run(es).texts
    ensures var w := Run(es);
            && k in w.authors
            && (k in Keys(w.outbox) || k in Keys(DiskOf(w, w.authors[k]))
                || (k in w.confirmed && Row(w.confirmed[k], k) in w.stored)
                || k in w.failed || k in w.lost)
  {
    RunIsSound(es);
    assert TextSound(Run(es), k);
  }

  predicate Careful(e: Event) {
    && !e.LoggedOut? && !e.AccountSwitched? && !e.GroupPurged?
    && (e.Composed? ==> e.file || e.saved)
  }

  lemma StepSaves(w: World, e: Event)
    requires Careful(e)
    ensures Step(w, e).unsaved == w.unsaved
  {
    hide Keep, Keys, KeysFor, DiskOf, Flush, FirstFor, KeepRows, OnlyInMemory, Advance, Insert, SameClient;
    if ByServer(e) || e.Disconnected? {
      ServerStepFrame(w, e);
      assert Step(w, e).unsaved == w.unsaved by {
        ClientUnsaved(w, Step(w, e));
      }
      hide Step;
    } else {
      FlushKeepsRecord(w, if e.Flushed? then e.keys else _ => Unknown);
    }
  }

  lemma ClientUnsaved(w: World, t: World)
    requires SameClient(w, t)
    ensures t.unsaved == w.unsaved && t.texts == w.texts && t.lost == w.lost
  {
  }

  /**
   While nobody logs out or switches accounts, no group is purged and the local store takes every
   text, no text is ever lost: through drops, lost replies and restarts it waits until it is sent,
   its row stored, or fails.
   */
  lemma {:induction false} NoSilentLoss(es: seq<Event>)
    requires forall e <- es :: Careful(e)
    ensures Run(es).unsaved == {} && Run(es).lost == {}
    ensures forall k <- Run(es).texts :: !Vanished(Run(es), k)
  {
    RunIsSound(es);
    forall k | k in Run(es).texts
      ensures Waits(Run(es), k) || k in Run(es).confirmed || k in Run(es).failed || k in Run(es).lost
    {
      assert TextSound(Run(es), k);
    }
    if es != [] {
      var front, last := es[..|es| - 1], es[|es| - 1];
      assert last in es && forall e <- front :: e in es;
      NoSilentLoss(front);
      RunIsSound(front);
      hide Step, FlightSound;
      StepSaves(Run(front), last);
    }
  }

  // ---- When a text vanishes ----

  /** A text still to be sent: in memory, or in its author's store. */
  predicate Waits(w: World, k: Key) {
    k in Keys(w.outbox) || OnDisk(w, k)
  }

  predicate OnDisk(w: World, k: Key) {
    k in w.authors && k in Keys(DiskOf(w, w.authors[k]))
  }

  /** Memory and stores hold the same message under the same key. */
  predicate DiskAgrees(w: World, u: User) {
    forall a <- w.outbox, b <- DiskOf(w, u) :: a.key == b.key ==> a == b
  }

  /** The record of lost texts is true: they are nowhere. */
  ghost predicate Located(w: World) {
    && (forall u :: DiskAgrees(w, u))
    && (forall k :: k in w.lost ==> !Waits(w, k) && k in w.authors)
  }

  /** t holds no message that w does not hold at the same place. */
  ghost predicate HoldsNoMore(w: World, t: World) {
    && (forall item :: item in t.outbox ==> item in w.outbox)
    && (forall u, item :: item in DiskOf(t, u) ==> item in DiskOf(w, u))
    && t.authors == w.authors && t.lost == w.lost
  }

  lemma HoldingNoMoreKeepsLocated(w: World, t: World)
    requires Located(w) && HoldsNoMore(w, t)
    ensures Located(t)
  {
    forall u
      ensures DiskAgrees(t, u)
    {
      assert DiskAgrees(w, u);
    }
    forall k | Waits(t, k)
      ensures Waits(w, k)
    {
    }
  }

  lemma RemovalHoldsNoMore(w: World, gone: set<Key>, t: World)
    requires t.outbox == Keep(w.outbox, gone) && t.authors == w.authors && t.lost == w.lost
    requires t.disk == Remove(w, gone).disk
    ensures HoldsNoMore(w, t)
  {
    KeepMembers(w.outbox, gone);
    if w.user.Some? {
      KeepMembers(DiskOf(w, w.user.value), gone);
    }
    hide Keep;
  }

  lemma LoginKeepsLocated(w: World, u: User)
    requires Accounted(w) && Located(w)
    ensures Located(Login(w, u))
  {
    var t := Login(w, u);
    KeepMembers(DiskOf(w, u), Keys(w.outbox));
    assert StoreSound(w, u);
    hide Keep;
    forall v
      ensures DiskAgrees(t, v)
    {
      assert DiskAgrees(w, v) && StoreSound(w, v);
      forall a, b | a in t.outbox && b in DiskOf(t, v) && a.key == b.key
        ensures a == b
      {
        if a !in w.outbox {
          assert a in DiskOf(w, u) && b in DiskOf(w, v) && u == v;
        }
      }
    }
    forall k | k in w.lost
      ensures !Waits(t, k)
    {
      assert !Waits(w, k);
      forall item | item in t.outbox
        ensures item.key != k
      {
        if item !in w.outbox {
          assert item in DiskOf(w, u) && w.authors[item.key] == u;
        }
      }
    }
  }

  lemma ComposeKeepsLocated(w: World, target: Target, file: bool, saved: bool)
    requires Accounted(w) && FlightSound(w) && Located(w)
    ensures Located(Compose(w, target, file, saved))
  {
    var t := Compose(w, target, file, saved);
    if w.user.Some? {
      var item := Item(w.nextKey, w.user.value, target, file);
      assert t.outbox == w.outbox + [item];
      forall u
        ensures DiskAgrees(t, u)
      {
        assert DiskAgrees(w, u) && StoreSound(w, u);
        assert forall b <- DiskOf(w, u) :: b.key in w.authors;
      }
      forall k | k in w.lost
        ensures !Waits(t, k)
      {
        assert !Waits(w, k) && k < w.nextKey;
      }
    }
  }

  lemma RestartKeepsLocated(w: World)
    requires Accounted(w) && Located(w)
    ensures Located(Restart(w))
  {
    var t := Restart(w);
    forall k | k in t.lost
      ensures !Waits(t, k) && k in t.authors
    {
      if k in w.lost {
        assert !Waits(w, k);
      } else {
        var item :| item in w.outbox && !item.file && item !in DiskOf(w, item.author) && item.key == k;
        assert ItemSound(w, item) && DiskAgrees(w, item.author);
      }
    }
  }

  lemma HoldingTheSame(w: World, t: World)
    requires t.outbox == w.outbox && t.disk == w.disk && t.authors == w.authors && t.lost == w.lost
    ensures HoldsNoMore(w, t)
  {
  }

  lemma ReceiveHoldsNoMore(w: World, r: Request, code: Code)
    requires r in w.inFlight && r in w.calls
    ensures HoldsNoMore(w, Receive(w, r, code))
  {
    hide Keep, HoldsNoMore;
    match code {
      case Ok => RemovalHoldsNoMore(w, {w.inFlight[r]}, Receive(w, r, Ok));
      case Deterministic =>
        if exists item <- w.outbox :: item.key == w.inFlight[r] && item.target.Group? {
          RemovalHoldsNoMore(w, {w.inFlight[r]}, Receive(w, r, Deterministic));
        } else {
          HoldingTheSame(w, Receive(w, r, Deterministic));
        }
      case Transient => HoldingTheSame(w, Receive(w, r, Transient));
    }
  }

  lemma KeysArrivedHoldsNoMore(w: World, peer: User, encrypts: bool)
    ensures HoldsNoMore(w, KeysArrived(w, peer, encrypts))
  {
    hide Keep, FirstFor;
    var i := FirstFor(w.outbox, peer, w.inFlight.Values, 0);
    if w.online && w.user.Some? && i < |w.outbox| && !encrypts {
      RemovalHoldsNoMore(w, {w.outbox[i].key}, KeysArrived(w, peer, encrypts));
    }
  }

  lemma PeerRefusedHoldsNoMore(w: World, peer: User)
    ensures HoldsNoMore(w, PeerRefused(w, peer))
  {
    hide Keep, KeysFor;
    RemovalHoldsNoMore(w, KeysFor(w.outbox, peer), PeerRefused(w, peer));
  }

  lemma SyncedHoldsNoMore(w: World, k: Key)
    ensures HoldsNoMore(w, Step(w, OwnMessageSynced(k)))
  {
    hide Keep;
    RemovalHoldsNoMore(w, {k}, Remove(w, {k}).(confirmed := Step(w, OwnMessageSynced(k)).confirmed));
  }

  lemma {:induction false} FlushFromKeepsRecord(w: World, i: nat, busy: set<Key>, keys: int -> GroupKeyState)
    requires w.user.Some?
    ensures var t := FlushFrom(w, i, busy, keys);
            && t.texts == w.texts && t.lost == w.lost && t.unsaved == w.unsaved
            && t.outbox == w.outbox && t.disk == w.disk && t.authors == w.authors
    decreases |w.outbox| - i
  {
    if i < |w.outbox| {
      var item := w.outbox[i];
      if item.target.Group? && item.key !in busy && keys(item.target.conv) == Ready {
        FlushFromKeepsRecord(Transmit(w, item.key), i + 1, busy, keys);
      } else if item.target.Private? || item.key in busy || keys(item.target.conv) == Waiting {
        FlushFromKeepsRecord(w, i + 1, busy, keys);
      }
    }
  }

  lemma FlushKeepsRecord(w: World, keys: int -> GroupKeyState)
    ensures var t := Flush(w, keys);
            && t.texts == w.texts && t.lost == w.lost && t.unsaved == w.unsaved
            && t.outbox == w.outbox && t.disk == w.disk && t.authors == w.authors
  {
    hide FlushFrom;
    if w.online && w.user.Some? {
      FlushFromKeepsRecord(w, 0, w.inFlight.Values, keys);
    }
  }

  /** The same client, its stores and its record. */
  predicate SameClient(w: World, t: World) {
    && t.user == w.user && t.outbox == w.outbox && t.disk == w.disk && t.authors == w.authors && t.texts == w.texts
    && t.confirmed == w.confirmed && t.failed == w.failed && t.unsaved == w.unsaved && t.lost == w.lost
    && t.nextKey == w.nextKey
  }

  lemma AdvanceKeepsClient(w: World, r: Request, phase: Phase)
    requires r in w.calls
    ensures SameClient(w, Advance(w, r, phase))
  {
  }

  lemma InsertKeepsClient(w: World, r: Request, works: bool)
    requires r in w.calls
    ensures SameClient(w, Insert(w, r, works))
  {
  }

  lemma SameClientItself(w: World)
    ensures SameClient(w, w)
    ensures forall rows :: SameClient(w, w.(rows := rows))
    ensures SameClient(w, w.(online := false, inFlight := map[]))
  {
  }

  lemma ServerStepFrame(w: World, e: Event)
    requires ByServer(e) || e.Disconnected?
    ensures SameClient(w, Step(w, e))
  {
    hide SameClient, KeepRows, Advance, Insert;
    SameClientItself(w);
    match e {
      case FirstLookup(r) => if r in w.calls { AdvanceKeepsClient(w, r, if Exists(w, r) then Answered(Ok) else LookedUp); }
      case Refused(r, code) => if r in w.calls { AdvanceKeepsClient(w, r, Answered(code)); }
      case SecondLookup(r) => if r in w.calls { AdvanceKeepsClient(w, r, if Exists(w, r) then Answered(Ok) else Inserting); }
      case Inserted(r, works) => if r in w.calls { InsertKeepsClient(w, r, works); }
      case LastLookup(r) => if r in w.calls { AdvanceKeepsClient(w, r, Answered(if Exists(w, r) then Ok else Transient)); }
      case RowsDeleted(gone) =>
      case Disconnected =>
    }
  }

  /** Every other step holds no more than before. */
  lemma OtherStepHoldsNoMore(w: World, e: Event)
    requires !e.Composed? && !e.LoggedIn? && !e.AccountSwitched? && !e.Restarted?
    ensures HoldsNoMore(w, Step(w, e))
  {
    hide Flush, KeysArrived, PeerRefused, Remove, Receive, Compose, Login, Logout, Restart, PurgeGroup, KeepRows, Insert, Advance;
    if ByServer(e) || e.Disconnected? {
      ServerStepFrame(w, e);
      hide Step;
    } else {
      match e {
        case Flushed(keys) => FlushKeepsRecord(w, keys);
        case PeerKeysArrived(peer, encrypts) => KeysArrivedHoldsNoMore(w, peer, encrypts);
        case PeerRefusedForGood(peer) => PeerRefusedHoldsNoMore(w, peer);
        case ResponseReceived(r) =>
          if r in w.inFlight && r in w.calls && w.calls[r].phase.Answered? {
            ReceiveHoldsNoMore(w, r, w.calls[r].phase.code);
          }
        case OwnMessageSynced(k) => SyncedHoldsNoMore(w, k);
        case LoggedOut => LogoutHoldsNoMore(w);
        case GroupPurged(conv) => PurgeHoldsNoMore(w, conv);
      }
    }
  }

  lemma SwitchKeepsLocated(w: World, u: User)
    requires FlightSound(w) && Accounted(w) && Located(w)
    ensures Located(Step(w, AccountSwitched(u)))
  {
    hide FlightSound, Accounted, Located, HoldsNoMore, Login, Logout;
    LogoutKeepsAll(w);
    LogoutHoldsNoMore(w);
    HoldingNoMoreKeepsLocated(w, Logout(w));
    LoginKeepsLocated(Logout(w), u);
  }

  lemma LogoutHoldsNoMore(w: World)
    ensures HoldsNoMore(w, Logout(w))
  {
  }

  lemma PurgeHoldsNoMore(w: World, conv: int)
    ensures HoldsNoMore(w, PurgeGroup(w, conv))
  {
    if w.user.Some? {
      KeepMembers(DiskOf(w, w.user.value), KeysOfGroup(DiskOf(w, w.user.value), conv));
    }
    hide Keep;
  }

  lemma StepKeepsLocated(w: World, e: Event)
    requires FlightSound(w) && Accounted(w) && Located(w)
    ensures Located(Step(w, e))
  {
    hide Located, Accounted, FlightSound, HoldsNoMore, Login, Compose, Restart;
    if e.Composed? {
      ComposeKeepsLocated(w, e.target, e.file, e.saved);
    } else if e.LoggedIn? {
      if w.user in {None, Some(e.u)} {
        LoginKeepsLocated(w, e.u);
      }
    } else if e.AccountSwitched? {
      SwitchKeepsLocated(w, e.u);
    } else if e.Restarted? {
      RestartKeepsLocated(w);
    } else {
      OtherStepHoldsNoMore(w, e);
      HoldingNoMoreKeepsLocated(w, Step(w, e));
    }
  }

  /** In every run the texts recorded as lost are in no list and no store. */
  lemma {:induction false} LostMeansGone(es: seq<Event>)
    ensures Located(Run(es))
  {
    if es != [] {
      LostMeansGone(es[..|es| - 1]);
      RunIsSound(es[..|es| - 1]);
      hide Step, Located, RowsSound, FlightSound, Accounted;
      StepKeepsLocated(Run(es[..|es| - 1]), es[|es| - 1]);
    }
  }

  /** Nowhere, and neither sent nor failed. */
  predicate Vanished(w: World, k: Key) {
    !Waits(w, k) && k !in w.confirmed && k !in w.failed
  }

  /**
   In any run, a text that waits vanishes with the next event exactly when that is a restart, the
   text is not on its author's disk and its fate is not known: no reply, drop, login or logout takes it.
   */
  lemma TextVanishesExactlyWhen(es: seq<Event>, e: Event, k: Key)
    requires k in Run(es).texts && Waits(Run(es), k)
    ensures Vanished(Step(Run(es), e), k)
       <==> e.Restarted? && !OnDisk(Run(es), k) && k !in Run(es).confirmed && k !in Run(es).failed
  {
    var w := Run(es);
    LostMeansGone(es);
    RunIsSound(es + [e]);
    assert (es + [e])[..|es|] == es;
    var t := Step(w, e);
    assert TextSound(t, k);
    if e.Restarted? {
      assert t.outbox == [] && DiskOf(t, w.authors[k]) == DiskOf(w, w.authors[k]);
    } else {
      TextsAndLosses(w, e);
      assert k in t.texts && k !in t.lost;
    }
  }

  /** Nothing but a restart is recorded as a loss, and no text stops being one. */
  lemma TextsAndLosses(w: World, e: Event)
    ensures w.texts <= Step(w, e).texts
    ensures !e.Restarted? ==> Step(w, e).lost == w.lost
  {
    hide Flush, KeysArrived, PeerRefused, PurgeGroup, Compose, Login, Logout, Restart, Remove, Receive, Insert, Advance, KeepRows, SameClient;
    if ByServer(e) || e.Disconnected? {
      ServerStepFrame(w, e);
      ClientUnsaved(w, Step(w, e));
      hide Step;
    } else {
      match e {
        case Composed(target, file, saved) => ListsKeepTexts(w, target, file, saved, 0, 0);
        case PeerRefusedForGood(peer) => ListsKeepTexts(w, Private(0), false, false, peer, 0);
        case GroupPurged(conv) => ListsKeepTexts(w, Private(0), false, false, 0, conv);
        case LoggedIn(u) => SessionsKeepTexts(w, u);
        case AccountSwitched(u) => SessionsKeepTexts(w, u);
        case LoggedOut => SessionsKeepTexts(w, 0);
        case Restarted => SessionsKeepTexts(w, 0);
        case Flushed(keys) => FlushKeepsRecord(w, keys);
        case PeerKeysArrived(peer, encrypts) => KeysArrivedKeepsTexts(w, peer, encrypts);
        case ResponseReceived(r) =>
          if r in w.inFlight && r in w.calls && w.calls[r].phase.Answered? {
            ReceiveKeepsTexts(w, r, w.calls[r].phase.code);
          }
        case OwnMessageSynced(k) => RemoveKeepsTexts(w, {k});
      }
    }
  }

  lemma RemoveKeepsTexts(w: World, gone: set<Key>)
    ensures Remove(w, gone).texts == w.texts && Remove(w, gone).lost == w.lost
  {
  }

  lemma ListsKeepTexts(w: World, target: Target, file: bool, saved: bool, peer: User, conv: int)
    ensures w.texts <= Compose(w, target, file, saved).texts && Compose(w, target, file, saved).lost == w.lost
    ensures PeerRefused(w, peer).texts == w.texts && PeerRefused(w, peer).lost == w.lost
    ensures PurgeGroup(w, conv).texts == w.texts && PurgeGroup(w, conv).lost == w.lost
  {
    hide Keep, KeysFor, KeysOfGroup, DiskOf, Remove, Compose;
    RemoveKeepsTexts(w, KeysFor(w.outbox, peer));
    ComposeKeepsTexts(w, target, file, saved);
  }

  lemma ComposeKeepsTexts(w: World, target: Target, file: bool, saved: bool)
    ensures w.texts <= Compose(w, target, file, saved).texts && Compose(w, target, file, saved).lost == w.lost
  {
    hide DiskOf;
  }

  lemma SessionsKeepTexts(w: World, u: User)
    ensures Login(w, u).texts == w.texts && Login(w, u).lost == w.lost
    ensures Logout(w).texts == w.texts && Logout(w).lost == w.lost
    ensures Login(Logout(w), u).texts == w.texts && Login(Logout(w), u).lost == w.lost
    ensures Restart(w).texts == w.texts
  {
    hide Keep, Keys, DiskOf, OnlyInMemory;
  }

  lemma KeysArrivedKeepsTexts(w: World, peer: User, encrypts: bool)
    ensures KeysArrived(w, peer, encrypts).texts == w.texts && KeysArrived(w, peer, encrypts).lost == w.lost
  {
    hide Keep, FirstFor, DiskOf;
  }

  lemma ReceiveKeepsTexts(w: World, r: Request, code: Code)
    requires r in w.inFlight && r in w.calls
    ensures Receive(w, r, code).texts == w.texts && Receive(w, r, code).lost == w.lost
  {
    hide Keep, DiskOf;
  }

  lemma RunStep(es: seq<Event>, k: nat)
    requires k < |es|
    ensures Run(es[..k + 1]) == Step(Run(es[..k]), es[k])
  {
    assert es[..k + 1][..k] == es[..k];
  }

  /** The only text of account 1, taken by the store. */
  predicate OneTextSaved(w: World) {
    && w.user == Some(1) && w.outbox == [Item(1, 1, Private(2), false)] && DiskOf(w, 1) == w.outbox
    && w.texts == {1} && w.authors == map[1 := 1] && w.confirmed == map[] && w.failed == {}
  }

  lemma OneTextComposed()
    ensures OneTextSaved(Run([LoggedIn(1), Composed(Private(2), false, true)]))
  {
    hide Flush, KeysArrived, PeerRefused, Receive, Insert, Advance, KeepRows, Transmit, Restart, Logout;
    var es := [LoggedIn(1), Composed(Private(2), false, true)];
    assert es[..0] == [] && es[..2] == es;
    RunStep(es, 0);
    RunStep(es, 1);
    var w := Run(es[..1]);
    assert Run([]) == Initial();
    assert w == Initial().(user := Some(1), online := true, outbox := []);
  }

  lemma LoggedOutUnsaved(w: World)
    requires OneTextSaved(w)
    ensures var t := Step(w, LoggedOut);
            && Waits(t, 1) && !OnDisk(t, 1) && 1 in t.texts && 1 !in t.confirmed && 1 !in t.failed
  {
    hide Flush, KeysArrived, PeerRefused, Receive, Insert, Advance, KeepRows, Transmit, Restart, Compose, Login;
    assert w.outbox[0] in w.outbox;
  }

  /** Logging out makes that happen to a text the store had taken: out, then a restart, and it is nowhere. */
  lemma LogoutThenRestartLosesText()
    ensures OnDisk(Run([LoggedIn(1), Composed(Private(2), false, true)]), 1)
    ensures Vanished(Run([LoggedIn(1), Composed(Private(2), false, true), LoggedOut, Restarted]), 1)
  {
    hide Run, Step;
    var es := [LoggedIn(1), Composed(Private(2), false, true), LoggedOut, Restarted];
    assert es[..2] == [LoggedIn(1), Composed(Private(2), false, true)] && es[..4] == es;
    OneTextComposed();
    var w := Run(es[..2]);
    assert w.outbox[0] in DiskOf(w, 1);
    LoggedOutUnsaved(w);
    RunStep(es, 2);
    RunStep(es, 3);
    TextVanishesExactlyWhen(es[..3], Restarted, 1);
  }

  // ---- Messages and accounts ----

  /** Without a logout or a switch: everything in the outbox is the user's own, and so is every call. */
  ghost predicate OneAccount(w: World) {
    && (forall item <- w.outbox :: w.user == Some(item.author))
    && (forall r :: r in w.calls ==> w.calls[r].key in w.authors && w.authors[w.calls[r].key] == w.calls[r].sender)
    && (forall row :: row in w.stored ==> row.key in w.authors && w.authors[row.key] == row.sender)
  }

  lemma TransmittedKeepsAccount(w: World, t: World)
    requires Accounted(w) && OneAccount(w) && Transmitted(w, t)
    ensures OneAccount(t)
  {
    forall r | r in t.calls && r !in w.calls
      ensures t.calls[r].key in w.authors && w.authors[t.calls[r].key] == t.calls[r].sender
    {
      var item :| item in w.outbox && item.key == t.calls[r].key;
      assert ItemSound(w, item);
    }
  }

  /** Removing messages and recording their fate concerns no account. */
  lemma RemovedKeepsAccount(w: World, gone: set<Key>, t: World)
    requires OneAccount(w) && t.outbox == Keep(w.outbox, gone) && t.user == w.user
    requires t.calls == w.calls && t.stored == w.stored && t.authors == w.authors
    ensures OneAccount(t)
  {
    KeepMembers(w.outbox, gone);
  }

  lemma StepKeepsAccount(w: World, e: Event)
    requires FlightSound(w) && Accounted(w) && OneAccount(w) && !e.LoggedOut? && !e.AccountSwitched?
    ensures OneAccount(Step(w, e))
  {
    hide Keep, Keys, KeysFor, FirstFor, Flush, KeysArrived, KeepRows, Receive, Insert, Advance, Login, Compose;
    hide FlightSound, Accounted, StoreSound, OneAccount;
    match e {
      case Composed(target, file, saved) => ComposeKeepsAccount(w, target, file, saved);
      case LoggedIn(u) =>
        if w.user in {None, Some(u)} {
          StoreIsSound(w, u);
          LoginKeepsAccount(w, u);
        }
      case Flushed(keys) =>
        FlushSound(w, keys);
        TransmittedKeepsAccount(w, Flush(w, keys));
      case PeerKeysArrived(peer, encrypts) =>
        if encrypts {
          KeysArrivedSends(w, peer);
          TransmittedKeepsAccount(w, KeysArrived(w, peer, true));
        } else {
          EncryptionFailureKeepsAccount(w, peer);
        }
      case PeerRefusedForGood(peer) => RemovedKeepsAccount(w, KeysFor(w.outbox, peer), PeerRefused(w, peer));
      case ResponseReceived(r) =>
        if r in w.inFlight && r in w.calls && w.calls[r].phase.Answered? {
          ResponseKeepsAccount(w, r, w.calls[r].phase.code);
        }
      case OwnMessageSynced(k) =>
        if w.online && w.user.Some? && Row(w.user.value, k) in w.stored {
          RemovedKeepsAccount(w, {k}, Step(w, e));
        }
      case FirstLookup(_) => ServerStepKeepsAccount(w, e);
      case Refused(_, _) => ServerStepKeepsAccount(w, e);
      case SecondLookup(_) => ServerStepKeepsAccount(w, e);
      case Inserted(_, _) => ServerStepKeepsAccount(w, e);
      case LastLookup(_) => ServerStepKeepsAccount(w, e);
      case RowsDeleted(_) => QuietStepKeepsAccount(w, e);
      case GroupPurged(_) => QuietStepKeepsAccount(w, e);
      case Disconnected => QuietStepKeepsAccount(w, e);
      case Restarted => QuietStepKeepsAccount(w, e);
    }
  }

  lemma StoreIsSound(w: World, u: User)
    requires Accounted(w)
    ensures StoreSound(w, u)
  {
  }

  lemma QuietStepKeepsAccount(w: World, e: Event)
    requires OneAccount(w) && (e.RowsDeleted? || e.GroupPurged? || e.Disconnected? || e.Restarted?)
    ensures OneAccount(Step(w, e))
  {
    hide Keep, KeepRows, KeysOfGroup, OnlyInMemory, Flush, KeysArrived, PeerRefused, Remove, Receive, Login, Compose, Logout, Insert, Advance;
  }

  lemma EncryptionFailureKeepsAccount(w: World, peer: User)
    requires OneAccount(w)
    ensures OneAccount(KeysArrived(w, peer, false))
  {
    hide Keep, OneAccount;
    var i := FirstFor(w.outbox, peer, w.inFlight.Values, 0);
    hide FirstFor;
    if w.online && w.user.Some? && i < |w.outbox| {
      RemovedKeepsAccount(w, {w.outbox[i].key}, KeysArrived(w, peer, false));
    }
  }

  lemma ResponseKeepsAccount(w: World, r: Request, code: Code)
    requires OneAccount(w) && r in w.inFlight && r in w.calls
    ensures OneAccount(Receive(w, r, code))
  {
    hide Keep;
    if Receive(w, r, code).outbox != w.outbox {
      RemovedKeepsAccount(w, {w.inFlight[r]}, Receive(w, r, code));
    }
  }

  lemma AdvanceKeepsAccount(w: World, r: Request, phase: Phase)
    requires OneAccount(w) && r in w.calls
    ensures OneAccount(Advance(w, r, phase))
  {
  }

  lemma InsertKeepsAccount(w: World, r: Request, works: bool)
    requires OneAccount(w) && r in w.calls
    ensures OneAccount(Insert(w, r, works))
  {
  }

  lemma ServerStepKeepsAccount(w: World, e: Event)
    requires OneAccount(w)
    requires e.FirstLookup? || e.Refused? || e.SecondLookup? || e.Inserted? || e.LastLookup?
    ensures OneAccount(Step(w, e))
  {
    hide OneAccount, Advance, Insert, KeepRows;
    match e {
      case FirstLookup(r) => if r in w.calls { AdvanceKeepsAccount(w, r, if Exists(w, r) then Answered(Ok) else LookedUp); }
      case Refused(r, code) => if r in w.calls { AdvanceKeepsAccount(w, r, Answered(code)); }
      case SecondLookup(r) => if r in w.calls { AdvanceKeepsAccount(w, r, if Exists(w, r) then Answered(Ok) else Inserting); }
      case Inserted(r, works) => if r in w.calls { InsertKeepsAccount(w, r, works); }
      case LastLookup(r) => if r in w.calls { AdvanceKeepsAccount(w, r, Answered(if Exists(w, r) then Ok else Transient)); }
    }
  }

  lemma LoginKeepsAccount(w: World, u: User)
    requires OneAccount(w) && StoreSound(w, u) && w.user in {None, Some(u)}
    ensures OneAccount(Login(w, u))
  {
    KeepMembers(DiskOf(w, u), Keys(w.outbox));
  }

  lemma ComposeKeepsAccount(w: World, target: Target, file: bool, saved: bool)
    requires Accounted(w) && OneAccount(w)
    ensures OneAccount(Compose(w, target, file, saved))
  {
    hide DiskOf, StoreSound, TextSound, ItemSound;
  }

  lemma {:induction false} OneAccountRun(es: seq<Event>)
    requires forall e <- es :: !e.LoggedOut? && !e.AccountSwitched?
    ensures OneAccount(Run(es))
  {
    if es != [] {
      var front, last := es[..|es| - 1], es[|es| - 1];
      assert last in es && forall e <- front :: e in es;
      OneAccountRun(front);
      RunIsSound(front);
      hide Step, FlightSound, Accounted;
      StepKeepsAccount(Run(front), last);
    }
  }

  /** Without a logout or a switch of accounts, a message is stored only under the account that composed it. */
  lemma StoredUnderAuthor(es: seq<Event>, row: Row)
    requires forall e <- es :: !e.LoggedOut? && !e.AccountSwitched?
    requires row in Run(es).stored
    ensures row.key in Run(es).authors && Run(es).authors[row.key] == row.sender
  {
    OneAccountRun(es);
  }

  lemma NextAccount(w: World, u: User, v: User)
    requires OneAccount(w) && StoreSound(w, v) && w.user == Some(u)
    ensures (forall item <- Login(Logout(w), v).outbox :: item.author == v) <==> v == u || w.outbox == []
  {
    var out := Logout(w);
    KeepMembers(DiskOf(out, v), Keys(out.outbox));
    hide Keep, Keys;
    var t := Login(out, v);
    if w.outbox != [] {
      assert w.outbox[0] in t.outbox && w.outbox[0] in w.outbox;
    }
  }

  /**
   Changing accounts, by logging out and in or by a switch: exactly when messages are waiting and
   the next account is another one does the outbox then hold messages that are not its own.
   */
  lemma OutboxSurvivesLogout(es: seq<Event>, u: User, v: User)
    requires forall e <- es :: !e.LoggedOut? && !e.AccountSwitched?
    requires Run(es).user == Some(u)
    ensures var w := Step(Step(Run(es), LoggedOut), LoggedIn(v));
            && ((forall item <- w.outbox :: item.author == v) <==> v == u || Run(es).outbox == [])
            && (v != u ==> w == Step(Run(es), AccountSwitched(v)))
  {
    hide Run, OneAccount, StoreSound, FlightSound, RowsSound, Login;
    OneAccountRun(es);
    RunIsSound(es);
    NextAccount(Run(es), u, v);
    assert Logout(Run(es)).user == None;
  }

  // ---- What is sent, and when ----

  /** A group message not in flight. */
  predicate IdleGroup(item: Item, busy: set<Key>) {
    item.target.Group? && item.key !in busy
  }

  /** A flush reaches position j from i on and can send what it finds there. */
  predicate Due(items: seq<Item>, i: nat, j: nat, busy: set<Key>, keys: int -> GroupKeyState) {
    && i <= j < |items| && IdleGroup(items[j], busy) && keys(items[j].target.conv) == Ready
    && forall l :: i <= l < j && IdleGroup(items[l], busy) ==> keys(items[l].target.conv) != Unknown
  }

  /** Request r is new, in flight for message k, and has just reached the server's handler. */
  predicate SentAs(w: World, t: World, r: Request, k: Key) {
    && r !in w.calls && r in t.calls && t.calls[r].key == k && t.calls[r].phase == Sent
    && w.user == Some(t.calls[r].sender) && r in t.inFlight && t.inFlight[r] == k
  }

  /** A message that is due is sent. */
  ghost predicate DueIsSent(w: World, i: nat, busy: set<Key>, keys: int -> GroupKeyState, t: World, j: nat) {
    Due(w.outbox, i, j, busy, keys) ==> exists r :: SentAs(w, t, r, w.outbox[j].key)
  }

  /** A new request is for a message that is due. */
  ghost predicate SentForDue(w: World, i: nat, busy: set<Key>, keys: int -> GroupKeyState, t: World, r: Request) {
    r in t.calls && r !in w.calls ==>
      r >= w.nextRequest
      && exists j: nat :: j < |w.outbox| && Due(w.outbox, i, j, busy, keys) && SentAs(w, t, r, w.outbox[j].key)
  }

  /** Of two messages that are due the earlier one is sent first. */
  predicate SentBefore(w: World, i: nat, busy: set<Key>, keys: int -> GroupKeyState, t: World,
                       j: nat, r: Request, l: nat, q: Request) {
    j < l && Due(w.outbox, i, j, busy, keys) && Due(w.outbox, i, l, busy, keys) ==>
      SentAs(w, t, r, w.outbox[j].key) && SentAs(w, t, q, w.outbox[l].key) ==> r < q
  }

  /** What was in flight still is; whatever else is in flight is a new request. */
  ghost predicate FlightGrows(w: World, t: World) {
    && (forall r :: r in w.inFlight ==> r in t.inFlight && t.inFlight[r] == w.inFlight[r])
    && (forall r :: r in t.inFlight && r !in w.inFlight ==> r in t.calls && r !in w.calls)
  }

  /** Exactly the messages that are due from position i on are sent, in their order. */
  ghost predicate SendsDue(w: World, i: nat, busy: set<Key>, keys: int -> GroupKeyState, t: World) {
    && FlightGrows(w, t)
    && (forall j: nat :: DueIsSent(w, i, busy, keys, t, j))
    && (forall r :: SentForDue(w, i, busy, keys, t, r))
    && (forall j: nat, r, l: nat, q :: SentBefore(w, i, busy, keys, t, j, r, l, q))
  }

  lemma NothingDue(w: World, i: nat, busy: set<Key>, keys: int -> GroupKeyState)
    requires i < |w.outbox| ==> IdleGroup(w.outbox[i], busy) && keys(w.outbox[i].target.conv) == Unknown
    ensures SendsDue(w, i, busy, keys, w)
  {
    forall j: nat
      ensures !Due(w.outbox, i, j, busy, keys)
    {
      assert i < |w.outbox| && j > i ==> i <= i < j && IdleGroup(w.outbox[i], busy);
    }
    hide Due;
  }

  lemma DueLater(items: seq<Item>, i: nat, j: nat, busy: set<Key>, keys: int -> GroupKeyState)
    requires i < |items| && !(IdleGroup(items[i], busy) && keys(items[i].target.conv) == Unknown)
    ensures Due(items, i, j, busy, keys) <==>
              Due(items, i + 1, j, busy, keys) || (j == i && IdleGroup(items[i], busy) && keys(items[i].target.conv) == Ready)
  {
  }

  lemma SkipsOne(w: World, i: nat, busy: set<Key>, keys: int -> GroupKeyState, t: World)
    requires i < |w.outbox| && (IdleGroup(w.outbox[i], busy) ==> keys(w.outbox[i].target.conv) == Waiting)
    requires SendsDue(w, i + 1, busy, keys, t)
    ensures SendsDue(w, i, busy, keys, t)
  {
    forall j: nat
      ensures Due(w.outbox, i, j, busy, keys) <==> Due(w.outbox, i + 1, j, busy, keys)
    {
      DueLater(w.outbox, i, j, busy, keys);
    }
    hide Due, SentAs, FlightGrows;
    forall j: nat
      ensures DueIsSent(w, i, busy, keys, t, j)
    {
      assert DueIsSent(w, i + 1, busy, keys, t, j);
    }
    forall r
      ensures SentForDue(w, i, busy, keys, t, r)
    {
      assert SentForDue(w, i + 1, busy, keys, t, r);
    }
    forall j: nat, r, l: nat, q
      ensures SentBefore(w, i, busy, keys, t, j, r, l, q)
    {
      assert SentBefore(w, i + 1, busy, keys, t, j, r, l, q);
    }
  }

  /** For any other message, a request new after the first transmission is new after both. */
  lemma SentLater(w: World, item: Item, t: World, r: Request, k: Key)
    requires w.user.Some? && w.nextRequest !in w.calls && k != item.key
    requires Transmitted(Transmit(w, item.key), t)
    ensures SentAs(Transmit(w, item.key), t, r, k) <==> SentAs(w, t, r, k)
  {
  }

  /** What is due from i on: the message at i, and what is due after it. */
  predicate FirstOfDue(w: World, i: nat, busy: set<Key>, keys: int -> GroupKeyState, t: World, j: nat)
    requires w.user.Some? && i < |w.outbox|
  {
    && (Due(w.outbox, i, j, busy, keys) <==> j == i || Due(w.outbox, i + 1, j, busy, keys))
    && (Due(w.outbox, i + 1, j, busy, keys) ==> i < j < |w.outbox|)
  }

  predicate SameSends(w: World, i: nat, busy: set<Key>, keys: int -> GroupKeyState, t: World, j: nat, r: Request)
    requires w.user.Some? && i < |w.outbox|
  {
    Due(w.outbox, i + 1, j, busy, keys) ==>
      (SentAs(Transmit(w, w.outbox[i].key), t, r, w.outbox[j].key) <==> SentAs(w, t, r, w.outbox[j].key))
  }

  /** The message at position i goes out by the next request, and by no other. */
  ghost predicate GoesFirst(w: World, i: nat, busy: set<Key>, keys: int -> GroupKeyState, t: World)
    requires w.user.Some? && i < |w.outbox|
  {
    && SentAs(w, t, w.nextRequest, w.outbox[i].key)
    && (forall r :: SentAs(w, t, r, w.outbox[i].key) ==> r == w.nextRequest)
    && (forall j: nat :: FirstOfDue(w, i, busy, keys, t, j))
    && (forall j: nat, r :: SameSends(w, i, busy, keys, t, j, r))
  }

  lemma ItGoesFirst(w: World, i: nat, busy: set<Key>, keys: int -> GroupKeyState, t: World)
    requires FlightSound(w) && w.user.Some? && i < |w.outbox| && FlightSound(t)
    requires IdleGroup(w.outbox[i], busy) && keys(w.outbox[i].target.conv) == Ready
    requires var u := Transmit(w, w.outbox[i].key); FlightGrows(u, t) && Transmitted(u, t)
    ensures GoesFirst(w, i, busy, keys, t)
  {
    var item := w.outbox[i];
    var u := Transmit(w, item.key);
    assert w.nextRequest in u.inFlight;
    assert SentAs(w, t, w.nextRequest, item.key);
    OnlyFirst(w, item, t);
    hide Transmitted, FlightGrows, SentAs;
    forall j: nat
      ensures FirstOfDue(w, i, busy, keys, t, j)
    {
      DueLater(w.outbox, i, j, busy, keys);
    }
    forall j: nat, r
      ensures SameSends(w, i, busy, keys, t, j, r)
    {
      if Due(w.outbox, i + 1, j, busy, keys) {
        SentLater(w, item, t, r, w.outbox[j].key);
      }
    }
  }

  /** The first message's request is the only one for it. */
  lemma OnlyFirst(w: World, item: Item, t: World)
    requires FlightSound(t) && w.nextRequest in t.inFlight && t.inFlight[w.nextRequest] == item.key
    ensures forall r :: SentAs(w, t, r, item.key) ==> r == w.nextRequest
  {
  }

  lemma SendsOne(w: World, i: nat, busy: set<Key>, keys: int -> GroupKeyState, t: World)
    requires FlightSound(w) && w.user.Some? && i < |w.outbox| && FlightSound(t)
    requires IdleGroup(w.outbox[i], busy) && keys(w.outbox[i].target.conv) == Ready
    requires var u := Transmit(w, w.outbox[i].key); SendsDue(u, i + 1, busy, keys, t) && Transmitted(u, t)
    ensures SendsDue(w, i, busy, keys, t)
  {
    ItGoesFirst(w, i, busy, keys, t);
    var u := Transmit(w, w.outbox[i].key);
    assert FlightGrows(w, t) by {
      assert w.nextRequest !in w.inFlight;
      hide FlightSound;
    }
    hide FlightSound, Transmitted, GoesFirst, FlightGrows, IdleGroup, Due;
    forall j: nat
      ensures DueIsSent(w, i, busy, keys, t, j)
    {
      assert DueIsSent(u, i + 1, busy, keys, t, j);
      OneMoreSent(w, i, busy, keys, t, j);
    }
    forall r
      ensures SentForDue(w, i, busy, keys, t, r)
    {
      assert SentForDue(u, i + 1, busy, keys, t, r);
      OneMoreRequest(w, i, busy, keys, t, r);
    }
    forall j: nat, r, l: nat, q
      ensures SentBefore(w, i, busy, keys, t, j, r, l, q)
    {
      assert SentBefore(u, i + 1, busy, keys, t, j, r, l, q) && SentForDue(u, i + 1, busy, keys, t, q);
      OneMoreInOrder(w, i, busy, keys, t, j, r, l, q);
    }
  }

  lemma OneMoreSent(w: World, i: nat, busy: set<Key>, keys: int -> GroupKeyState, t: World, j: nat)
    requires w.user.Some? && i < |w.outbox| && GoesFirst(w, i, busy, keys, t)
    requires DueIsSent(Transmit(w, w.outbox[i].key), i + 1, busy, keys, t, j)
    ensures DueIsSent(w, i, busy, keys, t, j)
  {
    hide Due, SentAs;
    var u := Transmit(w, w.outbox[i].key);
    assert FirstOfDue(w, i, busy, keys, t, j);
    if Due(w.outbox, i + 1, j, busy, keys) {
      var r :| SentAs(u, t, r, u.outbox[j].key);
      assert SameSends(w, i, busy, keys, t, j, r);
    }
  }

  lemma OneMoreRequest(w: World, i: nat, busy: set<Key>, keys: int -> GroupKeyState, t: World, r: Request)
    requires w.user.Some? && i < |w.outbox| && GoesFirst(w, i, busy, keys, t)
    requires SentForDue(Transmit(w, w.outbox[i].key), i + 1, busy, keys, t, r)
    ensures SentForDue(w, i, busy, keys, t, r)
  {
    hide Due, SentAs;
    var u := Transmit(w, w.outbox[i].key);
    assert FirstOfDue(w, i, busy, keys, t, i);
    if r in t.calls && r !in w.calls && r != w.nextRequest {
      assert r !in u.calls;
      var j: nat :| j < |u.outbox| && Due(u.outbox, i + 1, j, busy, keys) && SentAs(u, t, r, u.outbox[j].key);
      assert SameSends(w, i, busy, keys, t, j, r) && FirstOfDue(w, i, busy, keys, t, j);
    }
  }

  lemma OneMoreInOrder(w: World, i: nat, busy: set<Key>, keys: int -> GroupKeyState, t: World,
                       j: nat, r: Request, l: nat, q: Request)
    requires w.user.Some? && i < |w.outbox| && GoesFirst(w, i, busy, keys, t)
    requires var u := Transmit(w, w.outbox[i].key);
             SentBefore(u, i + 1, busy, keys, t, j, r, l, q) && SentForDue(u, i + 1, busy, keys, t, q)
    ensures SentBefore(w, i, busy, keys, t, j, r, l, q)
  {
    hide Due;
    var u := Transmit(w, w.outbox[i].key);
    assert FirstOfDue(w, i, busy, keys, t, j) && FirstOfDue(w, i, busy, keys, t, l);
    assert SameSends(w, i, busy, keys, t, j, r) && SameSends(w, i, busy, keys, t, l, q);
    if Due(w.outbox, i, l, busy, keys) && j < l && SentAs(w, t, q, w.outbox[l].key) {
      assert Due(w.outbox, i, j, busy, keys) ==> l != i && q !in u.calls && q >= u.nextRequest;
    }
  }

  lemma {:induction false} FlushFromSends(w: World, i: nat, busy: set<Key>, keys: int -> GroupKeyState)
    requires FlightSound(w) && w.user.Some? && PassedOrBusy(w, i, busy)
    ensures SendsDue(w, i, busy, keys, FlushFrom(w, i, busy, keys))
    decreases |w.outbox| - i
  {
    hide FlightSound, Transmitted, PassedOrBusy, SendsDue;
    if i >= |w.outbox| {
      NothingDue(w, i, busy, keys);
    } else {
      var item := w.outbox[i];
      PassOne(w, i, busy);
      if item.target.Private? || item.key in busy || keys(item.target.conv) == Waiting {
        FlushFromSends(w, i + 1, busy, keys);
        SkipsOne(w, i, busy, keys, FlushFrom(w, i + 1, busy, keys));
      } else if keys(item.target.conv) == Ready {
        NotInFlight(w, i, busy);
        TransmitOne(w, item);
        FlushFromSound(Transmit(w, item.key), i + 1, busy, keys);
        FlushFromSends(Transmit(w, item.key), i + 1, busy, keys);
        SendsOne(w, i, busy, keys, FlushFrom(Transmit(w, item.key), i + 1, busy, keys));
      } else {
        NothingDue(w, i, busy, keys);
      }
    }
  }

  /** The keys of the messages a flush sends. */
  function DueKeys(items: seq<Item>, busy: set<Key>, keys: int -> GroupKeyState): set<Key> {
    set j: nat | j < |items| && Due(items, 0, j, busy, keys) :: items[j].key
  }

  /**
   In every run a flush while logged in puts in flight exactly the group messages that were not, whose
   group's key is ready, and before which no such message of a group without keys waits; each by one
   new request to the server's handler, in the order of the outbox. Nothing else changes.
   */
  lemma FlushSendsExactly(es: seq<Event>, keys: int -> GroupKeyState)
    requires Run(es).online && Run(es).user.Some?
    ensures var w, t := Run(es), Step(Run(es), Flushed(keys));
            && Transmitted(w, t) && SendsDue(w, 0, w.inFlight.Values, keys, t)
            && t.inFlight.Values == w.inFlight.Values + DueKeys(w.outbox, w.inFlight.Values, keys)
            && (forall r, q, k :: SentAs(w, t, r, k) && SentAs(w, t, q, k) ==> r == q)
  {
    var w := Run(es);
    var busy := w.inFlight.Values;
    RunIsSound(es);
    hide Run, RowsSound, Accounted;
    FlushSound(w, keys);
    FlushFromSends(w, 0, busy, keys);
    var t := Flush(w, keys);
    OneRequestEach(w, t);
    hide FlightSound, Transmitted, FlushFrom;
    SentAndBusy(w, keys, t);
  }

  lemma OneRequestEach(w: World, t: World)
    requires FlightSound(t)
    ensures forall r, q, k :: SentAs(w, t, r, k) && SentAs(w, t, q, k) ==> r == q
  {
  }

  lemma SentAndBusy(w: World, keys: int -> GroupKeyState, t: World)
    requires SendsDue(w, 0, w.inFlight.Values, keys, t)
    ensures t.inFlight.Values == w.inFlight.Values + DueKeys(w.outbox, w.inFlight.Values, keys)
  {
    hide SendsDue, DueKeys;
    forall k
      ensures k in t.inFlight.Values <==> k in w.inFlight.Values || k in DueKeys(w.outbox, w.inFlight.Values, keys)
    {
      if k in t.inFlight.Values {
        InFlightWasDue(w, keys, t, k);
      }
      DueIsInFlight(w, keys, t, k);
    }
  }

  lemma InFlightWasDue(w: World, keys: int -> GroupKeyState, t: World, k: Key)
    requires SendsDue(w, 0, w.inFlight.Values, keys, t) && k in t.inFlight.Values
    ensures k in w.inFlight.Values || k in DueKeys(w.outbox, w.inFlight.Values, keys)
  {
    var busy := w.inFlight.Values;
    hide Due;
    var r := Preimage(t.inFlight, k);
    if r in w.inFlight {
      assert w.inFlight[r] == k;
    } else {
      assert SentForDue(w, 0, busy, keys, t, r);
      var j: nat :| j < |w.outbox| && Due(w.outbox, 0, j, busy, keys) && SentAs(w, t, r, w.outbox[j].key);
    }
  }

  lemma DueIsInFlight(w: World, keys: int -> GroupKeyState, t: World, k: Key)
    requires SendsDue(w, 0, w.inFlight.Values, keys, t)
    ensures k in w.inFlight.Values || k in DueKeys(w.outbox, w.inFlight.Values, keys) ==> k in t.inFlight.Values
  {
    var busy := w.inFlight.Values;
    hide Due;
    if k in busy {
      var r := Preimage(w.inFlight, k);
      assert t.inFlight[r] == k;
    } else if k in DueKeys(w.outbox, busy, keys) {
      var j: nat :| j < |w.outbox| && Due(w.outbox, 0, j, busy, keys) && w.outbox[j].key == k;
      assert DueIsSent(w, 0, busy, keys, t, j);
      var r :| SentAs(w, t, r, w.outbox[j].key);
      assert t.inFlight[r] == k;
    }
  }

  /** The message for the peer a fetched key is used for. */
  predicate FirstIdle(items: seq<Item>, peer: User, busy: set<Key>, j: nat) {
    && j < |items| && items[j].target == Private(peer) && items[j].key !in busy
    && forall l :: 0 <= l < j ==> !(items[l].target == Private(peer) && items[l].key !in busy)
  }

  /**
   In every run the arrival of a peer's keys, while logged in, sends exactly the first message for that
   peer not in flight, or fails it if it cannot be encrypted; without such a message nothing changes.
   */
  lemma KeysSendFirst(es: seq<Event>, peer: User, encrypts: bool, j: nat)
    requires Run(es).online && Run(es).user.Some?
    ensures var w, t := Run(es), Step(Run(es), PeerKeysArrived(peer, encrypts));
            FirstIdle(w.outbox, peer, w.inFlight.Values, j) ==>
              var k := w.outbox[j].key;
              if encrypts then
                && Transmitted(w, t) && t.inFlight == w.inFlight[w.nextRequest := k] && SentAs(w, t, w.nextRequest, k)
              else
                && t.inFlight == w.inFlight && t.failed == w.failed + {k}
                && (forall item :: item in t.outbox <==> item in w.outbox && item.key != k)
    ensures var w, t := Run(es), Step(Run(es), PeerKeysArrived(peer, encrypts));
            (forall item <- w.outbox :: item.target == Private(peer) ==> item.key in w.inFlight.Values) ==> t == w
  {
    var w := Run(es);
    RunIsSound(es);
    hide Run, RowsSound, Accounted, KeysArrived, Transmitted, SentAs;
    if FirstIdle(w.outbox, peer, w.inFlight.Values, j) {
      if encrypts {
        FirstIsSent(w, peer, j);
      } else {
        FirstFails(w, peer, j);
      }
    }
    NobodyIdle(w, peer, encrypts);
  }

  lemma FirstFound(w: World, peer: User, j: nat)
    requires FirstIdle(w.outbox, peer, w.inFlight.Values, j)
    ensures FirstFor(w.outbox, peer, w.inFlight.Values, 0) == j
  {
    FirstForFinds(w.outbox, peer, w.inFlight.Values, 0);
  }

  lemma FirstIsSent(w: World, peer: User, j: nat)
    requires FlightSound(w) && w.online && w.user.Some? && FirstIdle(w.outbox, peer, w.inFlight.Values, j)
    ensures var t := KeysArrived(w, peer, true);
            var k := w.outbox[j].key;
            Transmitted(w, t) && t.inFlight == w.inFlight[w.nextRequest := k] && SentAs(w, t, w.nextRequest, k)
  {
    FirstFound(w, peer, j);
    KeysArrivedSends(w, peer);
    hide FirstFor, Transmitted;
  }

  lemma FirstFails(w: World, peer: User, j: nat)
    requires w.online && w.user.Some? && FirstIdle(w.outbox, peer, w.inFlight.Values, j)
    ensures var t := KeysArrived(w, peer, false);
            var k := w.outbox[j].key;
            && t.inFlight == w.inFlight && t.failed == w.failed + {k}
            && (forall item :: item in t.outbox <==> item in w.outbox && item.key != k)
  {
    FirstFound(w, peer, j);
    KeepMembers(w.outbox, {w.outbox[j].key});
    hide FirstFor, Keep, DiskOf;
  }

  lemma NobodyIdle(w: World, peer: User, encrypts: bool)
    ensures (forall item <- w.outbox :: item.target == Private(peer) ==> item.key in w.inFlight.Values) ==>
              KeysArrived(w, peer, encrypts) == w
  {
    var i := FirstFor(w.outbox, peer, w.inFlight.Values, 0);
    FirstForFinds(w.outbox, peer, w.inFlight.Values, 0);
    hide FirstFor, Remove, Transmit;
    if i < |w.outbox| {
      assert w.outbox[i] in w.outbox;
    }
  }

  /** In every run a peer's refusal fails exactly the messages waiting for it; no other message is touched. */
  lemma RefusalFailsExactly(es: seq<Event>, peer: User)
    requires Run(es).online
    ensures var w, t := Run(es), Step(Run(es), PeerRefusedForGood(peer));
            && (forall item :: item in t.outbox <==> item in w.outbox && item.target != Private(peer))
            && (forall k :: k in t.failed <==> k in w.failed || exists item <- w.outbox :: item.key == k && item.target == Private(peer))
            && t.confirmed == w.confirmed && t.inFlight == w.inFlight
  {
    var w := Run(es);
    RunIsSound(es);
    hide Run, RowsSound, Accounted;
    KeepMembers(w.outbox, KeysFor(w.outbox, peer));
    OnlyForPeer(w, peer);
    hide Keep, DiskOf, FlightSound, KeysFor;
    assert Step(w, PeerRefusedForGood(peer)) == PeerRefused(w, peer);
    hide Step;
  }

  lemma OnlyForPeer(w: World, peer: User)
    requires FlightSound(w)
    ensures forall item <- w.outbox :: item.key in KeysFor(w.outbox, peer) <==> item.target == Private(peer)
    ensures forall k :: k in KeysFor(w.outbox, peer) <==> exists item <- w.outbox :: item.key == k && item.target == Private(peer)
  {
    forall item | item in w.outbox
      ensures item.key in KeysFor(w.outbox, peer) <==> item.target == Private(peer)
    {
      if item.key in KeysFor(w.outbox, peer) {
        var other :| other in w.outbox && other.target == Private(peer) && other.key == item.key;
        assert other == item;
      }
    }
  }

  /** Memory as it was; of the open store the group's messages are gone, and nothing else. */
  ghost predicate GroupTaken(w: World, conv: int, t: World) {
    && t.outbox == w.outbox && t.inFlight == w.inFlight
    && forall u, item :: item in DiskOf(t, u) <==> item in DiskOf(w, u) && !(w.user == Some(u) && item.target == Group(conv))
  }

  /** In every run purging a group takes its texts from the open store, keeps the others and leaves the outbox alone. */
  lemma PurgeTakesGroup(es: seq<Event>, conv: int)
    requires Run(es).user.Some?
    ensures GroupTaken(Run(es), conv, Step(Run(es), GroupPurged(conv)))
  {
    hide Run, RowsSound, FlightSound, DiskOf, PurgeGroup, StoreSound, GroupTaken, Step;
    var w := Run(es);
    RunIsSound(es);
    assert StoreSound(w, w.user.value);
    PurgedDisk(w, conv);
    StepPurges(w, conv);
  }

  lemma StepPurges(w: World, conv: int)
    ensures Step(w, GroupPurged(conv)) == PurgeGroup(w, conv)
  {
    hide PurgeGroup;
  }

  lemma PurgedDisk(w: World, conv: int)
    requires w.user.Some? && StoreSound(w, w.user.value)
    ensures GroupTaken(w, conv, PurgeGroup(w, conv))
  {
    var u := w.user.value;
    var gone := KeysOfGroup(DiskOf(w, u), conv);
    KeepMembers(DiskOf(w, u), gone);
    OnlyOfGroup(DiskOf(w, u), conv);
    hide Keep, KeysOfGroup, StoreSound;
    var t := PurgeGroup(w, conv);
    assert DiskOf(t, u) == Keep(DiskOf(w, u), gone);
    assert forall v :: v != u ==> DiskOf(t, v) == DiskOf(w, v);
    hide DiskOf, PurgeGroup;
  }

  lemma OnlyOfGroup(items: seq<Item>, conv: int)
    requires DistinctKeys(items)
    ensures forall item <- items :: item.key in KeysOfGroup(items, conv) <==> item.target == Group(conv)
  {
    forall item | item in items
      ensures item.key in KeysOfGroup(items, conv) <==> item.target == Group(conv)
    {
      if item.key in KeysOfGroup(items, conv) {
        var other :| other in items && other.target == Group(conv) && other.key == item.key;
        assert other == item;
      }
    }
  }

  // ---- What the answers decide ----

  lemma RunAdds(es: seq<Event>, e: Event)
    ensures Run(es + [e]) == Step(Run(es), e)
  {
    hide Step;
    assert (es + [e])[..|es|] == es;
  }

  predicate ForGroup(w: World, k: Key) {
    exists item <- w.outbox :: item.key == k && item.target.Group?
  }

  /**
   In every run the answer to a request in flight takes its message off the list exactly when it was
   stored, or refused for good for a group; any other message is idle again, to be sent by a later flush.
   */
  lemma ResponseDecides(es: seq<Event>, r: Request)
    requires r in Run(es).inFlight && r in Run(es).calls && Run(es).calls[r].phase.Answered?
    ensures var w, t := Run(es), Run(es + [ResponseReceived(r)]);
            var k, code := w.inFlight[r], w.calls[r].phase.code;
            var fails := code == Deterministic && ForGroup(w, k);
            && t.inFlight == w.inFlight - {r} && k !in t.inFlight.Values
            && (forall item :: item in t.outbox <==> item in w.outbox && (item.key == k ==> code != Ok && !fails))
            && t.confirmed == (if code == Ok then w.confirmed[k := w.calls[r].sender] else w.confirmed)
            && t.failed == if fails then w.failed + {k} else w.failed
  {
    hide Run, RowsSound, Accounted, FlightSound, Receive, Step, ForGroup;
    var w := Run(es);
    RunAdds(es, ResponseReceived(r));
    RunIsSound(es);
    IdleAgain(w, r);
    Received(w, r, w.calls[r].phase.code);
    StepReceives(w, r);
  }

  lemma StepReceives(w: World, r: Request)
    requires r in w.inFlight && r in w.calls && w.calls[r].phase.Answered?
    ensures Step(w, ResponseReceived(r)) == Receive(w, r, w.calls[r].phase.code)
  {
    hide Receive;
  }

  lemma Received(w: World, r: Request, code: Code)
    requires r in w.inFlight && r in w.calls
    ensures var t := Receive(w, r, code);
            var k := w.inFlight[r];
            var fails := code == Deterministic && ForGroup(w, k);
            && t.inFlight == w.inFlight - {r}
            && (forall item :: item in t.outbox <==> item in w.outbox && (item.key == k ==> code != Ok && !fails))
            && t.confirmed == (if code == Ok then w.confirmed[k := w.calls[r].sender] else w.confirmed)
            && t.failed == if fails then w.failed + {k} else w.failed
  {
    var k := w.inFlight[r];
    KeepMembers(w.outbox, {k});
    hide Keep, DiskOf;
    match code {
      case Ok =>
      case Deterministic =>
        if ForGroup(w, k) {
          assert exists item <- w.outbox :: item.key == k && item.target.Group?;
        }
      case Transient =>
    }
  }

  lemma IdleAgain(w: World, r: Request)
    requires FlightSound(w) && r in w.inFlight
    ensures w.inFlight[r] !in (w.inFlight - {r}).Values
  {
    if w.inFlight[r] in (w.inFlight - {r}).Values {
      var q := Preimage(w.inFlight - {r}, w.inFlight[r]);
    }
  }

  /**
   A handler that has come to the insert answers that the message is stored exactly when the insert works
   or another request's row is there already; then the row is there.
   */
  lemma InsertDecides(es: seq<Event>, r: Request, works: bool)
    requires InPhase(Run(es), r, Inserting)
    ensures var w, t := Run(es), Run(es + [Inserted(r, works)] + [LastLookup(r)]);
            var row := Row(w.calls[r].sender, w.calls[r].key);
            && InPhase(t, r, Answered(if works || row in w.rows then Ok else Transient))
            && (row in t.rows <==> works || row in w.rows)
  {
    var w := Run(es);
    RunAdds(es, Inserted(r, works));
    RunAdds(es + [Inserted(r, works)], LastLookup(r));
    hide Run, Step;
    InsertEnds(w, r, works);
    LookupEnds(Step(w, Inserted(r, works)), r);
  }

  lemma InsertEnds(w: World, r: Request, works: bool)
    requires InPhase(w, r, Inserting)
    ensures var t := Step(w, Inserted(r, works));
            var row := Row(w.calls[r].sender, w.calls[r].key);
            && r in t.calls && t.calls[r].sender == w.calls[r].sender && t.calls[r].key == w.calls[r].key
            && t.rows == (if works && row !in w.rows then w.rows + [row] else w.rows)
            && t.calls[r].phase == if works && row !in w.rows then Answered(Ok) else Conflict
  {
    StepInserts(w, r, works);
    hide Step;
  }

  lemma StepInserts(w: World, r: Request, works: bool)
    requires InPhase(w, r, Inserting)
    ensures Step(w, Inserted(r, works)) == Insert(w, r, works)
  {
    hide Insert, Advance, Flush, Receive, Login, Logout, Restart, Compose, KeysArrived, PeerRefused, PurgeGroup, Remove, KeepRows;
  }

  lemma LookupEnds(w: World, r: Request)
    requires InPhase(w, r, Answered(Ok)) || InPhase(w, r, Conflict)
    ensures var t := Step(w, LastLookup(r));
            && t.rows == w.rows && r in t.calls
            && t.calls[r].phase == if w.calls[r].phase == Conflict && !Exists(w, r) then Answered(Transient) else Answered(Ok)
  {
  }

  // ---- What waits can be delivered ----

  /** Continued this way, the run has the message in flight, by a request that has just reached the handler. */
  predicate UnderWay(es: seq<Event>, more: seq<Event>, k: Key) {
    exists r :: && r in Run(es + more).inFlight && Run(es + more).inFlight[r] == k && InPhase(Run(es + more), r, Sent)
                && Run(es + more).online && Run(es + more).calls[r].key == k
  }

  /** Continued this way, the run has delivered the message: stored, confirmed, out of the outbox. */
  predicate Delivered(es: seq<Event>, more: seq<Event>, k: Key) {
    var t := Run(es + more);
    k in t.confirmed && Row(t.confirmed[k], k) in t.stored && forall item <- t.outbox :: item.key != k
  }

  lemma GroupGoesOut(es: seq<Event>, j: nat)
    requires Run(es).online && Run(es).user.Some? && j < |Run(es).outbox|
    requires Run(es).inFlight == map[] && Run(es).outbox[j].target.Group?
    ensures UnderWay(es, [Flushed((conv: int) => Ready)], Run(es).outbox[j].key)
  {
    var w := Run(es);
    var keys := (conv: int) => Ready;
    FlushSendsExactly(es, keys);
    RunAdds(es, Flushed(keys));
    var t := Step(w, Flushed(keys));
    hide Run, Step, Transmitted;
    assert w.inFlight.Values == {};
    assert Due(w.outbox, 0, j, w.inFlight.Values, keys) && DueIsSent(w, 0, w.inFlight.Values, keys, t, j);
    var r :| SentAs(w, t, r, w.outbox[j].key);
    assert t.online;
  }

  /** Each arrival of the peer's keys sends one message for it, until it is this one's turn. */
  lemma {:induction false} PrivateGoesOut(es: seq<Event>, j: nat, peer: User)
    requires Run(es).online && Run(es).user.Some? && j < |Run(es).outbox|
    requires Run(es).outbox[j].target == Private(peer) && Run(es).outbox[j].key !in Run(es).inFlight.Values
    ensures exists more :: UnderWay(es, more, Run(es).outbox[j].key)
    decreases j - FirstFor(Run(es).outbox, peer, Run(es).inFlight.Values, 0)
  {
    hide Run, Step, FirstFor, Transmitted, FlightSound, RowsSound, Accounted;
    var w := Run(es);
    var busy := w.inFlight.Values;
    var k := w.outbox[j].key;
    FirstForFinds(w.outbox, peer, busy, 0);
    var i := FirstFor(w.outbox, peer, busy, 0);
    assert i <= j;
    var e := PeerKeysArrived(peer, true);
    assert FirstIdle(w.outbox, peer, busy, i);
    KeysSendFirst(es, peer, true, i);
    RunAdds(es, e);
    var t := Step(w, e);
    TransmittedKeeps(w, t);
    if i == j {
      assert InPhase(t, w.nextRequest, Sent);
      assert UnderWay(es, [e], k);
    } else {
      DistinctInRun(es);
      BusyToo(w, i, t);
      FirstForFinds(t.outbox, peer, t.inFlight.Values, 0);
      PrivateGoesOut(es + [e], j, peer);
      var more :| UnderWay(es + [e], more, k);
      assert es + [e] + more == es + ([e] + more);
      assert UnderWay(es, [e] + more, k);
    }
  }

  lemma TransmittedKeeps(w: World, t: World)
    requires Transmitted(w, t)
    ensures t.online == w.online && t.user == w.user && t.outbox == w.outbox
  {
  }

  lemma DistinctInRun(es: seq<Event>)
    ensures DistinctKeys(Run(es).outbox) && forall r :: r in Run(es).inFlight ==> r < Run(es).nextRequest
  {
    RunIsSound(es);
  }

  lemma BusyToo(w: World, i: nat, t: World)
    requires i < |w.outbox| && t.inFlight == w.inFlight[w.nextRequest := w.outbox[i].key]
    requires forall r :: r in w.inFlight ==> r < w.nextRequest
    ensures t.inFlight.Values == w.inFlight.Values + {w.outbox[i].key}
  {
    forall k
      ensures k in t.inFlight.Values <==> k in w.inFlight.Values || k == w.outbox[i].key
    {
      if k in w.inFlight.Values {
        var r := Preimage(w.inFlight, k);
        assert t.inFlight[r] == k;
      }
      if k == w.outbox[i].key {
        assert t.inFlight[w.nextRequest] == k;
      }
    }
  }

  /** The handler's statements for a request, nothing going wrong. */
  function Handling(w: World, r: Request): seq<Event>
    requires r in w.calls
  {
    if Exists(w, r) then [FirstLookup(r)] else [FirstLookup(r), SecondLookup(r), Inserted(r, true)]
  }

  lemma HandledWell(es: seq<Event>, r: Request)
    requires InPhase(Run(es), r, Sent)
    ensures var w, t := Run(es), Run(es + Handling(Run(es), r));
            && InPhase(t, r, Answered(Ok)) && t.calls[r].key == w.calls[r].key
            && t.inFlight == w.inFlight && t.outbox == w.outbox
  {
    var w := Run(es);
    RunAdds(es, FirstLookup(r));
    if !Exists(w, r) {
      RunAdds(es + [FirstLookup(r)], SecondLookup(r));
      RunAdds(es + [FirstLookup(r)] + [SecondLookup(r)], Inserted(r, true));
      assert es + [FirstLookup(r)] + [SecondLookup(r)] + [Inserted(r, true)] == es + Handling(w, r);
      hide Run;
      ThreeStatements(w, r);
    }
  }

  lemma ThreeStatements(w: World, r: Request)
    requires InPhase(w, r, Sent) && !Exists(w, r)
    ensures var t := Step(Step(Step(w, FirstLookup(r)), SecondLookup(r)), Inserted(r, true));
            && InPhase(t, r, Answered(Ok)) && t.calls[r].key == w.calls[r].key
            && t.inFlight == w.inFlight && t.outbox == w.outbox
  {
    var a := Step(w, FirstLookup(r));
    assert a == Advance(w, r, LookedUp);
    var b := Step(a, SecondLookup(r));
    assert b == Advance(a, r, Inserting);
  }

  lemma ReplyConfirms(es: seq<Event>, r: Request, k: Key)
    requires InPhase(Run(es), r, Answered(Ok)) && r in Run(es).inFlight && Run(es).inFlight[r] == k
    ensures Delivered(es, [ResponseReceived(r)], k)
  {
    RunAdds(es, ResponseReceived(r));
    RunIsSound(es + [ResponseReceived(r)]);
    hide Run, FlightSound, Accounted;
    KeepMembers(Run(es).outbox, {k});
    hide Keep, DiskOf;
    assert Step(Run(es), ResponseReceived(r)) == Receive(Run(es), r, Ok);
  }

  lemma UnderWayDelivers(es: seq<Event>, more: seq<Event>, k: Key)
    requires UnderWay(es, more, k)
    ensures exists rest :: Delivered(es, more + rest, k)
  {
    hide Run, Step;
    var sent := es + more;
    var r :| r in Run(sent).inFlight && Run(sent).inFlight[r] == k && InPhase(Run(sent), r, Sent);
    var handled := Handling(Run(sent), r);
    HandledWell(sent, r);
    ReplyConfirms(sent + handled, r, k);
    assert sent + handled + [ResponseReceived(r)] == es + (more + (handled + [ResponseReceived(r)]));
    assert Delivered(es, more + (handled + [ResponseReceived(r)]), k);
  }

  /** Dropping the connection and logging in again leaves nothing in flight and keeps what waits. */
  lemma ReconnectKeeps(es: seq<Event>, u: User, j: nat)
    requires j < |Run(es).outbox| && Run(es).user in {None, Some(u)}
    ensures var t := Run(es + [Disconnected] + [LoggedIn(u)]);
            t.online && t.user == Some(u) && t.inFlight == map[] && j < |t.outbox| && t.outbox[j] == Run(es).outbox[j]
  {
    RunAdds(es, Disconnected);
    RunAdds(es + [Disconnected], LoggedIn(u));
    hide Run, Keep, Keys, DiskOf;
  }

  /**
   Whatever has happened in a run, a message that waits in the outbox can still be delivered: some
   continuation has the server store it and the client confirm it and take it off the list.
   */
  lemma WaitingCanBeDelivered(es: seq<Event>, j: nat)
    requires j < |Run(es).outbox|
    ensures exists more :: Delivered(es, more, Run(es).outbox[j].key)
  {
    hide Run, Step, UnderWay, Delivered;
    var item := Run(es).outbox[j];
    var u := if Run(es).user.Some? then Run(es).user.value else item.author;
    ReconnectKeeps(es, u, j);
    var ready := es + [Disconnected] + [LoggedIn(u)];
    if item.target.Group? {
      GroupGoesOut(ready, j);
    } else {
      assert Run(ready).inFlight.Values == {};
      PrivateGoesOut(ready, j, item.target.peer);
    }
    var more :| UnderWay(ready, more, item.key);
    UnderWayDelivers(ready, more, item.key);
    var rest :| Delivered(ready, more + rest, item.key);
    assert ready == es + ([Disconnected] + [LoggedIn(u)]);
    SameRun(es, [Disconnected] + [LoggedIn(u)], more + rest, item.key);
  }

  lemma SameRun(es: seq<Event>, first: seq<Event>, more: seq<Event>, k: Key)
    requires Delivered(es + first, more, k)
    ensures Delivered(es, first + more, k)
  {
    hide Run;
    assert es + first + more == es + (first + more);
  }

  // ---- The client in place ----

  lemma {:induction false} KeepNothing(items: seq<Item>, gone: set<Key>)
    requires forall item <- items :: item.key !in gone
    ensures Keep(items, gone) == items
  {
    if items != [] {
      KeepNothing(items[..|items| - 1], gone);
      assert items[|items| - 1] in items;
    }
  }

  /** With distinct keys, dropping a key is removing the one item that has it. */
  lemma {:induction false} KeepOthers(items: seq<Item>, i: nat)
    requires DistinctKeys(items) && i < |items|
    ensures Keep(items, {items[i].key}) == items[..i] + items[i + 1..]
  {
    var last := |items| - 1;
    if i == last {
      KeepNothing(items[..last], {items[i].key});
    } else {
      KeepOthers(items[..last], i);
      assert items[..last][..i] + items[..last][i + 1..] + [items[last]] == items[..i] + items[i + 1..];
    }
  }

  lemma KeepEmpty(gone: set<Key>)
    ensures Keep([], gone) == []
  {
  }

  lemma {:induction false} KeepStep(items: seq<Item>, gone: set<Key>, k: nat)
    requires k < |items|
    ensures Keep(items[..k + 1], gone) == Keep(items[..k], gone) + if items[k].key in gone then [] else [items[k]]
  {
    assert items[..k + 1][..k] == items[..k];
  }

  class OutboxClient {
    var user: Option<User>
    var online: bool
    var outbox: seq<Item>
    var disk: map<User, seq<Item>>
    var inFlight: map<Request, Key>
    var nextKey: Key
    var nextRequest: Request
    ghost var background: World // the server and the record

    constructor ()
      ensures View() == Initial()
    {
      user, online, outbox, disk, inFlight, nextKey, nextRequest := None, false, [], map[], map[], 1, 1;
      background := Initial();
    }

    ghost function View(): World
      reads this
    {
      background.(user := user, online := online, outbox := outbox, disk := disk, inFlight := inFlight,
                  nextKey := nextKey, nextRequest := nextRequest)
    }

    /** Takes the item with key k, if any, out of the list in memory. */
    method RemoveFromList(k: Key)
      requires DistinctKeys(outbox)
      modifies this`outbox
      ensures outbox == Keep(old(outbox), {k})
    {
      for i := 0 to |outbox|
        invariant outbox == old(outbox)
        invariant forall j :: 0 <= j < i ==> outbox[j].key != k
      {
        if outbox[i].key == k {
          KeepOthers(outbox, i);
          outbox := outbox[..i] + outbox[i + 1..];
          return;
        }
      }
      KeepNothing(outbox, {k});
    }

    method RemoveMessage(k: Key)
      requires DistinctKeys(outbox)
      modifies this`outbox, this`disk
      ensures View() == Remove(old(View()), {k})
    {
      RemoveFromList(k);
      if user.Some? {
        disk := disk[user.value := Keep(if user.value in disk then disk[user.value] else [], {k})];
      }
    }

    method SendMessage(target: Target, file: bool, saved: bool) returns (k: Key)
      requires user.Some?
      modifies this`outbox, this`disk, this`nextKey, this`background
      ensures View() == Compose(old(View()), target, file, saved) && k == old(nextKey)
    {
      k := nextKey;
      nextKey := nextKey + 1;
      var item := Item(k, user.value, target, file);
      if !file {
        if saved {
          disk := disk[user.value := (if user.value in disk then disk[user.value] else []) + [item]];
        }
        background := background.(texts := background.texts + {k},
                                  unsaved := if saved then background.unsaved else background.unsaved + {k});
      }
      background := background.(authors := background.authors[k := user.value]);
      outbox := outbox + [item];
    }

    method TransmitMessage(k: Key)
      requires user.Some?
      modifies this`inFlight, this`nextRequest, this`background
      ensures View() == Transmit(old(View()), k)
    {
      inFlight := inFlight[nextRequest := k];
      background := background.(calls := background.calls[nextRequest := Call(user.value, k, Sent)]);
      nextRequest := nextRequest + 1;
    }

    method KeysInFlight() returns (busy: set<Key>)
      ensures busy == inFlight.Values
    {
      busy := {};
      var todo := inFlight.Keys;
      while todo != {}
        invariant todo <= inFlight.Keys && busy <= inFlight.Values
        invariant forall r :: r in inFlight && r !in todo ==> inFlight[r] in busy
      {
        ghost var some := Member(todo);
        var r :| r in todo;
        assert inFlight[r] in inFlight.Values;
        busy := busy + {inFlight[r]};
        todo := todo - {r};
      }
      forall k | k in inFlight.Values
        ensures k in busy
      {
        var r := Preimage(inFlight, k);
      }
    }

    /** Sends what can be sent of the group messages; stops to ask for a group's keys. */
    method FlushOutbox(keys: int -> GroupKeyState)
      modifies this`inFlight, this`nextRequest, this`background
      ensures View() == Flush(old(View()), keys)
    {
      if !online || user.None? {
        return;
      }
      var busy := KeysInFlight();
      ghost var start := View();
      ghost var target := FlushFrom(start, 0, busy, keys);
      var i := 0;
      while i < |outbox|
        invariant 0 <= i <= |outbox| && user.Some? && View().user == user
        invariant FlushFrom(View(), i, busy, keys) == target
      {
        var item := outbox[i];
        if item.target.Group? && item.key !in busy {
          match keys(item.target.conv) {
            case Ready => TransmitMessage(item.key);
            case Waiting =>
            case Unknown => return;
          }
        }
        i := i + 1;
      }
    }

    /** The peer's keys have arrived: its first message not in flight is encrypted and sent, or fails. */
    method HandleFetchedKeys(peer: User, encrypts: bool)
      requires DistinctKeys(outbox)
      modifies this
      ensures View() == KeysArrived(old(View()), peer, encrypts)
    {
      if !online || user.None? {
        return;
      }
      var busy := KeysInFlight();
      var i := 0;
      while i < |outbox|
        invariant 0 <= i <= |outbox| && View() == old(View())
        invariant FirstFor(outbox, peer, busy, 0) == FirstFor(outbox, peer, busy, i)
      {
        var item := outbox[i];
        if item.target == Private(peer) && item.key !in busy {
          if encrypts {
            TransmitMessage(item.key);
          } else {
            RemoveMessage(item.key);
            background := background.(failed := background.failed + {item.key});
          }
          return;
        }
        i := i + 1;
      }
    }

    method HandleSendResponse(r: Request, code: Code)
      requires r in inFlight && r in background.calls && DistinctKeys(outbox)
      modifies this
      ensures View() == Receive(old(View()), r, code)
    {
      hide Keep, DistinctKeys, Remove;
      var k := inFlight[r];
      inFlight := inFlight - {r};
      match code {
        case Ok =>
          RemoveMessage(k);
          background := background.(confirmed := background.confirmed[k := background.calls[r].sender]);
        case Deterministic =>
          var group := WaitsForGroup(k);
          if group {
            RemoveMessage(k);
            background := background.(failed := background.failed + {k});
          }
        case Transient =>
      }
    }

    /** Looks a message up in the list: is it there, and for a group? */
    method WaitsForGroup(k: Key) returns (group: bool)
      requires DistinctKeys(outbox)
      ensures group <==> exists item <- outbox :: item.key == k && item.target.Group?
    {
      for i := 0 to |outbox|
        invariant forall j :: 0 <= j < i ==> outbox[j].key != k
      {
        if outbox[i].key == k {
          assert forall item <- outbox :: item.key == k ==> item == outbox[i];
          assert outbox[i] in outbox;
          return outbox[i].target.Group?;
        }
      }
      return false;
    }

    method InMemory(k: Key) returns (known: bool)
      ensures known <==> exists m :: 0 <= m < |outbox| && outbox[m].key == k
    {
      known := false;
      for j := 0 to |outbox|
        invariant known <==> exists m :: 0 <= m < j && outbox[m].key == k
      {
        if outbox[j].key == k {
          known := true;
        }
      }
    }

    /** Loads the account's stored messages, skipping those already in memory. */
    method LoadPersisted(u: User)
      requires DistinctKeys(if u in disk then disk[u] else [])
      modifies this`user, this`online, this`outbox
      ensures View() == Login(old(View()), u)
    {
      hide Keep, Keys, DistinctKeys;
      KeepEmpty(Keys(outbox));
      user, online := Some(u), true;
      var persisted := if u in disk then disk[u] else [];
      ghost var present := Keys(outbox);
      for i := 0 to |persisted|
        invariant user == Some(u) && online && outbox == old(outbox) + Keep(persisted[..i], present)
      {
        var known := InMemory(persisted[i].key);
        AlreadyPresent(old(outbox), persisted, i, outbox);
        KeepStep(persisted, present, i);
        if !known {
          outbox := outbox + [persisted[i]];
        }
      }
      assert persisted[..|persisted|] == persisted;
    }

    static lemma AlreadyPresent(before: seq<Item>, persisted: seq<Item>, i: nat, now: seq<Item>)
      requires DistinctKeys(persisted) && i < |persisted| && now == before + Keep(persisted[..i], Keys(before))
      ensures (exists m :: 0 <= m < |now| && now[m].key == persisted[i].key) <==> persisted[i].key in Keys(before)
    {
      KeepMembers(persisted[..i], Keys(before));
      forall m | |before| <= m < |now|
        ensures now[m].key != persisted[i].key
      {
        assert now[m] in Keep(persisted[..i], Keys(before));
      }
      forall m | 0 <= m < |before|
        ensures now[m].key in Keys(before)
      {
        assert before[m] in before;
      }
      if persisted[i].key in Keys(before) {
        var item :| item in before && item.key == persisted[i].key;
        assert item in now;
      }
    }
  }
}
