/**
 The client's conversation rows, messages and clear marks: purging a conversation, leaving it,
 and reconciling the local list with the server's.

 Every SQL statement may fail; a fault record says which of one call do. A failed commit and a
 rollback both leave the store as it was before the transaction. Where no transaction could be
 begun, what has been written stays.
 */
module ConversationStore {
  import opened Wrappers

  datatype Kind = Private | Group

  datatype Conv = Conv(kind: Kind, left: bool, lastMessageId: int, unread: int, pinned: bool, muted: bool)

  /** An entry of the server's list; `left` is what its leftGroup field says, normally absent. */
  datatype Listed = Listed(id: int, kind: Kind, left: bool, lastMessageId: int, unread: int, pinned: bool, muted: bool)

  datatype Store = Store(
    convs: map<int, Conv>,
    messages: map<int, int>,   // message id to conversation
    marks: map<int, int>,      // history up to this message id was cleared
    outbox: map<int, int>,     // waiting group messages
    senderKeys: set<int>,      // groups with sender keys
    plaintexts: set<int>       // message ids in the decryption cache
  )

  function Max(a: int, b: int): int {
    if a < b then b else a
  }

  /** The clear mark of a conversation; an unreadable one counts as 0. */
  function ClearMark(s: Store, c: int, readable: bool): int {
    if c > 0 && readable && c in s.marks then s.marks[c] else 0
  }

  /** Where a request for a conversation's messages starts. */
  function SyncFrom(s: Store, c: int, afterId: int, readable: bool): int {
    Max(ClearMark(s, c, readable), afterId)
  }

  /** m is the largest of the ids, 0 when there are none. */
  predicate Tops(ids: set<int>, m: int) {
    (m == 0 || m in ids) && (forall id <- ids :: id <= m) && m >= 0
  }

  function MessagesOf(s: Store, c: int): set<int> {
    set id <- s.messages | s.messages[id] == c :: id
  }

  ghost predicate Valid(s: Store) {
    forall id <- s.messages :: id > 0
  }

  /** MAX(message_id) of a conversation, 0 if it has no messages. */
  ghost function LargestMessage(s: Store, c: int): (m: int)
    requires Valid(s)
    ensures Tops(MessagesOf(s, c), m)
  {
    TopExists(MessagesOf(s, c));
    var m :| Tops(MessagesOf(s, c), m);
    m
  }

  lemma {:induction false} TopExists(ids: set<int>)
    requires forall id <- ids :: id > 0
    ensures exists m :: Tops(ids, m)
    decreases |ids|
  {
    if ids == {} {
      assert Tops(ids, 0);
    } else {
      var a := Member(ids);
      TopExists(ids - {a});
      var b :| Tops(ids - {a}, b);
      assert ids == (ids - {a}) + {a};
      assert Tops(ids, Max(a, b));
    }
  }

  // ---- Purging ----

  datatype DeleteFaults = DeleteFaults(plaintexts: bool, messages: bool, keys: bool, skipped: bool, outbox: bool, row: bool) {
    predicate AllWork() {
      plaintexts && messages && keys && skipped && outbox && row
    }
  }

  datatype PurgeFaults = PurgeFaults(
    transaction: bool, markRead: bool, maxRead: bool, lastRead: bool, markWritten: bool, deletes: DeleteFaults, commit: bool)

  /** The deletions of one conversation's rows, each of which may fail by itself. */
  function DeleteRows(s: Store, c: int, d: DeleteFaults): Store {
    var ids := MessagesOf(s, c);
    var waiting := set k <- s.outbox | s.outbox[k] == c :: k;
    s.(plaintexts := if d.plaintexts then s.plaintexts - ids else s.plaintexts,
       messages := if d.messages then s.messages - ids else s.messages,
       senderKeys := if d.keys then s.senderKeys - {c} else s.senderKeys,
       outbox := if d.outbox then s.outbox - waiting else s.outbox,
       convs := if d.row then s.convs - {c} else s.convs)
  }

  /** The watermark a purge writes: the largest of what it could read and what the server told. */
  ghost function PurgeMark(s: Store, c: int, serverWatermark: int, f: PurgeFaults): int
    requires Valid(s)
  {
    Max(Max(Max(ClearMark(s, c, f.markRead), serverWatermark),
            if f.maxRead then LargestMessage(s, c) else 0),
        if f.lastRead && c in s.convs then s.convs[c].lastMessageId else 0)
  }

  /** `done` tells whether the call reports success. */
  ghost function Purge(s: Store, c: int, serverWatermark: int, f: PurgeFaults): (r: (Store, bool))
    requires Valid(s)
    ensures Valid(r.0)
  {
    if c <= 0 then (s, false)
    else
      var marked := if f.markWritten then s.(marks := s.marks[c := PurgeMark(s, c, serverWatermark, f)]) else s;
      var after := DeleteRows(marked, c, f.deletes);
      var ok := f.markWritten && f.deletes.AllWork();
      if !f.transaction then (after, ok)
      else if ok && f.commit then (after, true)
      else (s, false)
  }

  // ---- Reconciling ----

  datatype ReconcileFaults = ReconcileFaults(
    transaction: bool,
    leftRead: nat -> bool, markRead: nat -> bool, upserted: nat -> bool, floorWritten: nat -> bool, unreadReset: nat -> bool,
    scanned: bool,
    markedLeft: int -> bool,
    commit: bool)

  function Upsert(s: Store, e: Listed): Store {
    s.(convs := s.convs[e.id := Conv(e.kind, e.left, e.lastMessageId, e.unread, e.pinned, e.muted)])
  }

  /** Rejoined: the row was marked as left, or is gone while its clear mark remains. */
  predicate Rejoins(s: Store, e: Listed, leftRead: bool, markRead: bool) {
    var row := leftRead && e.id in s.convs;
    (row && s.convs[e.id].left) || (!row && ClearMark(s, e.id, markRead) > 0)
  }

  function ApplyRejoin(s: Store, e: Listed, floorWritten: bool, unreadReset: bool): Store
    requires e.id in s.convs
  {
    var floored := if e.lastMessageId > 0 && floorWritten
                   then s.(marks := s.marks[e.id := if e.id in s.marks then Max(s.marks[e.id], e.lastMessageId) else e.lastMessageId])
                   else s;
    if unreadReset then floored.(convs := floored.convs[e.id := floored.convs[e.id].(unread := 0)]) else floored
  }

  /** The i-th entry of the list, with whether every statement for it worked. */
  function ReconcileOne(s: Store, e: Listed, i: nat, f: ReconcileFaults): (Store, bool) {
    if e.id <= 0 then (s, true)
    else if !f.upserted(i) then (s, false)
    else
      var t := Upsert(s, e);
      if !Rejoins(s, e, f.leftRead(i), f.markRead(i)) then (t, f.leftRead(i))
      else
        (ApplyRejoin(t, e, f.floorWritten(i), f.unreadReset(i)),
         f.leftRead(i) && f.unreadReset(i) && (e.lastMessageId > 0 ==> f.floorWritten(i)))
  }

  function ReconcileListed(s: Store, list: seq<Listed>, f: ReconcileFaults): (Store, bool) {
    if list == [] then (s, true)
    else
      var before := ReconcileListed(s, list[..|list| - 1], f);
      var one := ReconcileOne(before.0, list[|list| - 1], |list| - 1, f);
      (one.0, before.1 && one.1)
  }

  function Ids(list: seq<Listed>): set<int> {
    set e <- list | e.id > 0 :: e.id
  }

  /** Active local groups the list does not name. */
  function Absent(s: Store, present: set<int>): set<int> {
    set id <- s.convs | id > 0 && s.convs[id].kind == Group && !s.convs[id].left && id !in present :: id
  }

  function LeaveAll(s: Store, ids: set<int>): Store {
    s.(convs := map id <- s.convs ::
         if id in ids then s.convs[id].(left := true, unread := 0, pinned := false, muted := false) else s.convs[id])
  }

  /** The store after a reconciliation, and the groups it reports as newly left. */
  function Reconcile(s: Store, list: seq<Listed>, f: ReconcileFaults): (Store, set<int>) {
    var (listed, ok) := ReconcileListed(s, list, f);
    if list == [] then (s, {})
    else
      var absent := if f.scanned then Absent(listed, Ids(list)) else {};
      var newly := set id <- absent | f.markedLeft(id) :: id;
      var after := LeaveAll(listed, newly);
      var worked := ok && f.scanned && newly == absent;
      if !f.transaction then (after, if worked then newly else {})
      else if worked && f.commit then (after, newly)
      else (s, {})
  }

  function AllWork(): ReconcileFaults {
    ReconcileFaults(true, (i: nat) => true, (i: nat) => true, (i: nat) => true, (i: nat) => true, (i: nat) => true,
                    true, (id: int) => true, true)
  }

  // ---- Purged history does not come back ----

  datatype Event =
    | Purged(c: int, serverWatermark: int, f: PurgeFaults)
    | Reconciled(list: seq<Listed>, g: ReconcileFaults)
    | Left(c: int, left: bool)
    | LoggedOut(messages: bool, rows: bool, waiting: bool) // which tables it managed to clear
    | MessageStored(id: int, c: int)
    | RowStored(e: Listed)
    | ConversationDeleted(c: int)      // deleted on the server: the mark goes as well

  function SetLeft(s: Store, c: int, left: bool): Store {
    if c <= 0 || c !in s.convs then s
    else
      var row := s.convs[c];
      s.(convs := s.convs[c := if left then row.(left := true, unread := 0, pinned := false, muted := false) else row.(left := false)])
  }

  /** Clears messages, rows and outbox, not the marks. */
  function ClearUserData(s: Store, messages: bool, rows: bool, waiting: bool): Store {
    s.(messages := if messages then map[] else s.messages,
       convs := if rows then map[] else s.convs,
       outbox := if waiting then map[] else s.outbox)
  }

  function DeleteConversation(s: Store, c: int): Store {
    var t := DeleteRows(s, c, DeleteFaults(true, true, true, true, true, true));
    t.(marks := s.marks - {c})
  }

  ghost function Step(s: Store, e: Event): Store
    requires Valid(s)
  {
    match e
    case Purged(c, wm, f) => Purge(s, c, wm, f).0
    case Reconciled(list, g) => Reconcile(s, list, g).0
    case Left(c, left) => SetLeft(s, c, left)
    case LoggedOut(messages, rows, waiting) => ClearUserData(s, messages, rows, waiting)
    case MessageStored(id, c) => if id > 0 then s.(messages := s.messages[id := c]) else s
    case RowStored(row) => if row.id > 0 then Upsert(s, row) else s
    case ConversationDeleted(c) => DeleteConversation(s, c)
  }

  predicate MarkAtLeast(s: Store, c: int, m: int) {
    ClearMark(s, c, true) >= m
  }

  /** Reconciling only ever raises a mark. */
  lemma {:induction false} ReconcileRaisesMarks(s: Store, list: seq<Listed>, f: ReconcileFaults, c: int)
    ensures var t := ReconcileListed(s, list, f).0;
            && ClearMark(t, c, true) >= ClearMark(s, c, true)
            && (c in s.marks ==> c in t.marks && t.marks[c] >= s.marks[c])
            && t.messages == s.messages
  {
    if list != [] {
      var last := |list| - 1;
      ReconcileRaisesMarks(s, list[..last], f, c);
      EntryRaisesMark(ReconcileListed(s, list[..last], f).0, list[last], last, f, c);
      hide ReconcileOne;
    }
  }

  lemma EntryRaisesMark(s: Store, e: Listed, i: nat, f: ReconcileFaults, c: int)
    ensures var t := ReconcileOne(s, e, i, f).0;
            t.messages == s.messages && (c in s.marks ==> c in t.marks && t.marks[c] >= s.marks[c])
    ensures e.id != c ==> var t := ReconcileOne(s, e, i, f).0; c in t.marks ==> c in s.marks
    ensures var t := ReconcileOne(s, e, i, f).0; c in t.marks && c !in s.marks ==> t.marks[c] > 0
  {
  }

  lemma StepKeepsValid(s: Store, e: Event)
    requires Valid(s)
    ensures Valid(Step(s, e))
  {
    if e.Reconciled? {
      ReconcileRaisesMarks(s, e.list, e.g, 1);
    }
  }

  /**
   A purge lowers a mark exactly when it cannot read it, writes all the same, and nothing else it
   could read, nor the server, knows of a message as late as the old mark.
   */
  lemma PurgeLowersMarkExactlyWhen(s: Store, c: int, wm: int, f: PurgeFaults)
    requires Valid(s) && c > 0 && c in s.marks && s.marks[c] > 0
    ensures var t := Purge(s, c, wm, f).0;
            (c !in t.marks || t.marks[c] < s.marks[c])
            <==> && f.markWritten && (f.transaction ==> f.deletes.AllWork() && f.commit)
                 && !f.markRead && wm < s.marks[c]
                 && (f.maxRead ==> LargestMessage(s, c) < s.marks[c])
                 && (f.lastRead && c in s.convs ==> s.convs[c].lastMessageId < s.marks[c])
  {
  }

  /** Any other step than deleting the conversation keeps or raises its mark. */
  lemma StepKeepsMark(s: Store, e: Event, c: int, m: int)
    requires Valid(s) && MarkAtLeast(s, c, m)
    requires !(e.ConversationDeleted? && e.c == c)
    requires e.Purged? && e.c == c ==> e.f.markRead
    ensures MarkAtLeast(Step(s, e), c, m)
  {
    if e.Reconciled? {
      ReconcileRaisesMarks(s, e.list, e.g, c);
    }
  }

  ghost function Run(s: Store, es: seq<Event>): (t: Store)
    requires Valid(s)
    ensures Valid(t)
  {
    if es == [] then s
    else
      var before := Run(s, es[..|es| - 1]);
      StepKeepsValid(before, es[|es| - 1]);
      Step(before, es[|es| - 1])
  }

  /** The conversation is not deleted on the server, and its mark can be read when it is purged. */
  ghost predicate Harmless(es: seq<Event>, c: int) {
    forall e <- es :: !(e.ConversationDeleted? && e.c == c) && (e.Purged? && e.c == c ==> e.f.markRead)
  }

  lemma {:induction false} MarkNeverDecreases(s: Store, es: seq<Event>, c: int, m: int)
    requires Valid(s) && MarkAtLeast(s, c, m) && Harmless(es, c)
    ensures MarkAtLeast(Run(s, es), c, m)
  {
    if es != [] {
      var front, last := es[..|es| - 1], es[|es| - 1];
      assert last in es && forall e <- front :: e in es;
      MarkNeverDecreases(s, front, c, m);
      StepKeepsMark(Run(s, front), last, c, m);
    }
  }

  /** The conversation's messages are covered by something the purge could read or was told. */
  ghost predicate MessagesKnown(s: Store, c: int, wm: int, f: PurgeFaults)
    requires Valid(s)
  {
    var m := LargestMessage(s, c);
    f.maxRead || m <= wm || m <= ClearMark(s, c, f.markRead) || (f.lastRead && c in s.convs && m <= s.convs[c].lastMessageId)
  }

  /** The same of the row's last message. */
  ghost predicate LastKnown(s: Store, c: int, wm: int, f: PurgeFaults)
    requires Valid(s) && c in s.convs
  {
    var m := s.convs[c].lastMessageId;
    f.lastRead || m <= 0 || m <= wm || m <= ClearMark(s, c, f.markRead) || (f.maxRead && m <= LargestMessage(s, c))
  }

  /** The same of the mark there was before. */
  ghost predicate MarkKnown(s: Store, c: int, wm: int, f: PurgeFaults)
    requires Valid(s)
  {
    var m := ClearMark(s, c, true);
    f.markRead || m <= 0 || m <= wm || (f.maxRead && m <= LargestMessage(s, c)) || (f.lastRead && c in s.convs && m <= s.convs[c].lastMessageId)
  }

  lemma MessagesBelow(s: Store, c: int, m: int)
    requires Valid(s) && m >= 0
    ensures LargestMessage(s, c) <= m <==> forall id <- s.messages :: s.messages[id] == c ==> id <= m
  {
    var top := LargestMessage(s, c);
    forall id | id in s.messages && s.messages[id] == c
      ensures id <= top
    {
      assert id in MessagesOf(s, c);
    }
    assert top in MessagesOf(s, c) ==> top in s.messages && s.messages[top] == c;
  }

  /** The mark left by a successful purge is the start of every later request, if the request can read it. */
  lemma LaterRequestsStartAtMark(s: Store, c: int, wm: int, f: PurgeFaults, es: seq<Event>, afterId: int, readable: bool)
    requires Valid(s) && c > 0 && Purge(s, c, wm, f).1 && Harmless(es, c)
    ensures SyncFrom(Run(Purge(s, c, wm, f).0, es), c, afterId, readable) >= PurgeMark(s, c, wm, f)
       <==> readable || afterId >= PurgeMark(s, c, wm, f) || PurgeMark(s, c, wm, f) == 0
  {
    var t := Purge(s, c, wm, f).0;
    MarkNeverDecreases(t, es, c, PurgeMark(s, c, wm, f));
  }

  /**
   After a purge that reports success, every later request for the conversation's messages that can
   read the mark starts at or above the server watermark, and at or above every message id, the last
   message's id and the old mark, each as soon as something the purge read or was told covers it:
   logging out, leaving, rejoining and purging again included.
   */
  lemma PurgedHistoryStaysAway(s: Store, c: int, wm: int, f: PurgeFaults, es: seq<Event>, afterId: int)
    requires Valid(s) && c > 0 && Purge(s, c, wm, f).1 && Harmless(es, c)
    ensures var start := SyncFrom(Run(Purge(s, c, wm, f).0, es), c, afterId, true);
            && start >= wm
            && (MarkKnown(s, c, wm, f) ==> start >= ClearMark(s, c, true))
            && (MessagesKnown(s, c, wm, f) ==> forall id <- s.messages :: s.messages[id] == c ==> id <= start)
            && (c in s.convs && LastKnown(s, c, wm, f) ==> s.convs[c].lastMessageId <= start)
  {
    LaterRequestsStartAtMark(s, c, wm, f, es, afterId, true);
    MessagesBelow(s, c, SyncFrom(Run(Purge(s, c, wm, f).0, es), c, afterId, true));
  }

  /** A request of the purged conversation, after any further run without deleting it, from any position. */
  ghost predicate AlwaysAbove(s: Store, c: int, m: int)
    requires Valid(s)
  {
    forall es, afterId :: Harmless(es, c) ==> StartsAbove(s, es, c, afterId, m)
  }

  ghost predicate StartsAbove(s: Store, es: seq<Event>, c: int, afterId: int, m: int)
    requires Valid(s)
  {
    SyncFrom(Run(s, es), c, afterId, true) >= m
  }

  /** Purged messages stay away from every later request exactly when the purge knew of them. */
  lemma PurgeCoversMessagesExactlyWhen(s: Store, c: int, wm: int, f: PurgeFaults)
    requires Valid(s) && c > 0 && Purge(s, c, wm, f).1 && MessagesOf(s, c) != {}
    ensures AlwaysAbove(Purge(s, c, wm, f).0, c, LargestMessage(s, c)) <==> MessagesKnown(s, c, wm, f)
  {
    var some := Member(MessagesOf(s, c));
    assert some in s.messages && some > 0;
    AboveExactlyWhen(s, c, wm, f, LargestMessage(s, c));
  }

  /** So does whatever came up to the last message's id ... */
  lemma PurgeCoversLastExactlyWhen(s: Store, c: int, wm: int, f: PurgeFaults)
    requires Valid(s) && c > 0 && Purge(s, c, wm, f).1 && c in s.convs
    ensures AlwaysAbove(Purge(s, c, wm, f).0, c, s.convs[c].lastMessageId) <==> LastKnown(s, c, wm, f)
  {
    AboveExactlyWhen(s, c, wm, f, s.convs[c].lastMessageId);
  }

  /** ... and whatever had been purged before. */
  lemma PurgeCoversOldMarkExactlyWhen(s: Store, c: int, wm: int, f: PurgeFaults)
    requires Valid(s) && c > 0 && Purge(s, c, wm, f).1
    ensures AlwaysAbove(Purge(s, c, wm, f).0, c, ClearMark(s, c, true)) <==> MarkKnown(s, c, wm, f)
  {
    AboveExactlyWhen(s, c, wm, f, ClearMark(s, c, true));
  }

  lemma AboveExactlyWhen(s: Store, c: int, wm: int, f: PurgeFaults, m: int)
    requires Valid(s) && c > 0 && Purge(s, c, wm, f).1
    ensures AlwaysAbove(Purge(s, c, wm, f).0, c, m) <==> m <= PurgeMark(s, c, wm, f)
  {
    var t := Purge(s, c, wm, f).0;
    if AlwaysAbove(t, c, m) {
      assert Harmless([], c);
      assert StartsAbove(t, [], c, 0, m);
      assert Run(t, []) == t;
    }
    forall es, afterId | Harmless(es, c) && m <= PurgeMark(s, c, wm, f)
      ensures StartsAbove(t, es, c, afterId, m)
    {
      LaterRequestsStartAtMark(s, c, wm, f, es, afterId, true);
    }
  }

  /** A failed purge has removed messages without recording the mark exactly when no transaction protected it. */
  lemma FailedPurgeLosesExactlyWhen(s: Store, c: int, wm: int, f: PurgeFaults)
    requires Valid(s) && c > 0 && !Purge(s, c, wm, f).1 && MessagesOf(s, c) != {} && PurgeMark(s, c, wm, f) > ClearMark(s, c, true)
    ensures (MessagesOf(Purge(s, c, wm, f).0, c) == {} && ClearMark(Purge(s, c, wm, f).0, c, true) == ClearMark(s, c, true))
       <==> !f.transaction && f.deletes.messages && !f.markWritten
  {
    var some := Member(MessagesOf(s, c));
    var t := Purge(s, c, wm, f).0;
    assert some in MessagesOf(t, c) <==> MessagesOf(t, c) == MessagesOf(s, c);
  }

  // ---- What a purge takes and what it leaves ----

  /** Nothing of conversation c is left in t but its mark; nothing of the others has changed. */
  ghost predicate Cleared(s: Store, c: int, t: Store) {
    && (forall id :: id in t.messages <==> id in s.messages && s.messages[id] != c)
    && (forall id <- t.messages :: t.messages[id] == s.messages[id])
    && (forall id :: id in t.convs <==> id in s.convs && id != c)
    && (forall id <- t.convs :: t.convs[id] == s.convs[id])
    && (forall k :: k in t.outbox <==> k in s.outbox && s.outbox[k] != c)
    && (forall k <- t.outbox :: t.outbox[k] == s.outbox[k])
    && t.senderKeys == s.senderKeys - {c}
    && (forall id :: id in t.plaintexts <==> id in s.plaintexts && !(id in s.messages && s.messages[id] == c))
    && t.marks - {c} == s.marks - {c}
  }

  lemma AllRowsDeleted(s: Store, c: int, d: DeleteFaults)
    requires d.AllWork()
    ensures Cleared(s, c, DeleteRows(s, c, d))
  {
  }

  lemma MarkAside(s: Store, marked: Store, c: int, t: Store)
    requires Cleared(marked, c, t) && marked == s.(marks := marked.marks) && marked.marks - {c} == s.marks - {c}
    ensures Cleared(s, c, t)
  {
  }

  /** A purge that reports success has removed everything of the conversation, and nothing else. */
  lemma PurgeIsExact(s: Store, c: int, wm: int, f: PurgeFaults)
    requires Valid(s) && Purge(s, c, wm, f).1
    ensures var t := Purge(s, c, wm, f).0;
            Cleared(s, c, t) && c in t.marks && t.marks[c] == PurgeMark(s, c, wm, f)
  {
    var marked := s.(marks := s.marks[c := PurgeMark(s, c, wm, f)]);
    assert marked.marks - {c} == s.marks - {c};
    AllRowsDeleted(marked, c, f.deletes);
    MarkAside(s, marked, c, DeleteRows(marked, c, f.deletes));
    hide Cleared;
  }

  /** So does a deletion on the server, which takes the mark as well: history is then asked for from the start again. */
  lemma DeletionIsExact(s: Store, c: int, afterId: int, readable: bool)
    requires Valid(s)
    ensures var t := Step(s, ConversationDeleted(c));
            Cleared(s, c, t) && c !in t.marks && SyncFrom(t, c, afterId, readable) == Max(0, afterId)
  {
    var all := DeleteFaults(true, true, true, true, true, true);
    var t := DeleteRows(s, c, all);
    AllRowsDeleted(s, c, all);
    assert t.marks == s.marks;
    assert (s.marks - {c}) - {c} == s.marks - {c};
  }

  /** Logging out takes messages, rows and waiting messages, but no mark, key or decrypted text. */
  lemma LogoutKeepsMarks(s: Store)
    requires Valid(s)
    ensures var t := Step(s, LoggedOut(true, true, true));
            && t.messages == map[] && t.convs == map[] && t.outbox == map[]
            && t.marks == s.marks && t.senderKeys == s.senderKeys && t.plaintexts == s.plaintexts
            && forall c, afterId, readable :: SyncFrom(t, c, afterId, readable) == SyncFrom(s, c, afterId, readable)
  {
  }

  // ---- Reconciling is exact ----

  predicate ValidList(list: seq<Listed>) {
    list != [] && forall e <- list :: e.id > 0 && !e.left
  }

  /** Reconciled so far: the listed rows are there and active, the others and their marks as before. */
  ghost predicate RowsListed(s: Store, ids: set<int>, t: Store) {
    && (forall id :: id in t.convs <==> id in s.convs || id in ids)
    && (forall id <- ids :: id in t.convs && !t.convs[id].left)
    && (forall id <- s.convs :: id !in ids ==> id in t.convs && t.convs[id] == s.convs[id])
    && t.messages == s.messages
    && (forall id :: id !in ids ==> (id in t.marks <==> id in s.marks) && (id in s.marks ==> id in t.marks && t.marks[id] == s.marks[id]))
  }

  lemma OneMoreListed(s: Store, ids: set<int>, t: Store, e: Listed, i: nat, f: ReconcileFaults)
    requires RowsListed(s, ids, t) && e.id > 0 && !e.left && ReconcileOne(t, e, i, f).1
    ensures RowsListed(s, ids + {e.id}, ReconcileOne(t, e, i, f).0)
  {
    TouchesOwnEntry(t, e, i, f);
    hide ReconcileOne;
  }

  /** A listed entry whose statements worked changes its own row, now active, and its own mark alone. */
  lemma TouchesOwnEntry(t: Store, e: Listed, i: nat, f: ReconcileFaults)
    requires e.id > 0 && !e.left && ReconcileOne(t, e, i, f).1
    ensures var u := ReconcileOne(t, e, i, f).0;
            && e.id in u.convs && !u.convs[e.id].left && u.messages == t.messages
            && (forall id :: id != e.id ==> (id in u.convs <==> id in t.convs) && (id in u.marks <==> id in t.marks))
            && (forall id :: id != e.id && id in t.convs ==> u.convs[id] == t.convs[id])
            && (forall id :: id != e.id && id in t.marks ==> u.marks[id] == t.marks[id])
  {
  }

  lemma IdsOfOneMore(front: seq<Listed>, last: Listed)
    requires last.id > 0
    ensures Ids(front + [last]) == Ids(front) + {last.id}
  {
    assert forall e <- front :: e in front + [last];
    assert last in front + [last];
  }

  lemma {:induction false} ListedRows(s: Store, list: seq<Listed>, f: ReconcileFaults)
    requires forall e <- list :: e.id > 0 && !e.left
    requires ReconcileListed(s, list, f).1
    ensures RowsListed(s, Ids(list), ReconcileListed(s, list, f).0)
  {
    hide ReconcileOne, Ids;
    if list == [] {
      NothingListed();
    } else {
      var front, last := list[..|list| - 1], list[|list| - 1];
      assert list == front + [last];
      assert forall e <- front :: e in list;
      assert last in list;
      ListedRows(s, front, f);
      IdsOfOneMore(front, last);
      hide RowsListed;
      OneMoreListed(s, Ids(front), ReconcileListed(s, front, f).0, last, |list| - 1, f);
    }
  }

  lemma NothingListed()
    ensures Ids([]) == {}
  {
  }

  /** Exactly the listed groups are active, and exactly those that stopped being so are reported. */
  ghost predicate Exact(s: Store, list: seq<Listed>, t: Store, newly: set<int>) {
    var ids := Ids(list);
    && newly == Absent(s, ids)
    && (forall id :: id in t.convs <==> id in s.convs || id in ids)
    && (forall id <- t.convs :: id in ids ==> !t.convs[id].left)
    && (forall id <- s.convs :: id !in ids && id !in newly ==> t.convs[id] == s.convs[id])
    && (forall id <- newly :: t.convs[id] == s.convs[id].(left := true, unread := 0, pinned := false, muted := false))
    && t.messages == s.messages
  }

  ghost predicate Positive(s: Store) {
    forall id <- s.convs :: id > 0
  }

  lemma AbsentUnchanged(s: Store, list: seq<Listed>, f: ReconcileFaults)
    requires ValidList(list) && ReconcileListed(s, list, f).1
    ensures Absent(ReconcileListed(s, list, f).0, Ids(list)) == Absent(s, Ids(list))
  {
    ListedRows(s, list, f);
  }

  /** In a transaction a reconciliation is exact, or changes and reports nothing. */
  lemma ReconcileExactOrNothing(s: Store, list: seq<Listed>, f: ReconcileFaults)
    requires ValidList(list) && f.transaction
    ensures var (t, newly) := Reconcile(s, list, f);
            (t == s && newly == {}) || Exact(s, list, t, newly)
  {
    var (t, newly) := Reconcile(s, list, f);
    var (listed, ok) := ReconcileListed(s, list, f);
    if ok && f.scanned && f.commit && newly == Absent(listed, Ids(list)) {
      ListedRows(s, list, f);
      AbsentUnchanged(s, list, f);
      hide ReconcileListed, Ids;
      assert Exact(s, list, LeaveAll(listed, newly), newly);
    }
  }

  lemma {:induction false} AllWorked(s: Store, list: seq<Listed>)
    ensures ReconcileListed(s, list, AllWork()).1
  {
    if list != [] {
      AllWorked(s, list[..|list| - 1]);
    }
  }

  /** When everything works: listed groups are active, the others are not, other rows are untouched. */
  lemma ReconcileIsExact(s: Store, list: seq<Listed>)
    requires ValidList(list) && Positive(s)
    ensures var (t, newly) := Reconcile(s, list, AllWork());
            && Exact(s, list, t, newly)
            && (forall id <- t.convs :: t.convs[id].kind == Group ==> (t.convs[id].left <==> id !in Ids(list)))
            && (forall id <- s.convs :: s.convs[id].kind == Private && id !in Ids(list) ==> t.convs[id] == s.convs[id])
  {
    var f := AllWork();
    var (listed, ok) := ReconcileListed(s, list, f);
    var (t, newly) := Reconcile(s, list, f);
    AllWorked(s, list);
    ListedRows(s, list, f);
    AbsentUnchanged(s, list, f);
    hide ReconcileListed, Ids;
    assert newly == Absent(listed, Ids(list));
    assert t == LeaveAll(listed, newly);
    forall id | id in t.convs && t.convs[id].kind == Group
      ensures t.convs[id].left <==> id !in Ids(list)
    {
      assert id in newly || t.convs[id] == listed.convs[id];
    }
  }

  /** Listed so far are `ids`: no mark and no left flag differs, other rows are untouched. */
  ghost predicate Refreshed(s: Store, ids: set<int>, t: Store) {
    && t.marks == s.marks && t.convs.Keys == s.convs.Keys
    && (forall id <- s.convs :: t.convs[id].left == s.convs[id].left)
    && (forall id <- s.convs :: id !in ids ==> t.convs[id] == s.convs[id])
  }

  lemma OneMoreRefreshed(s: Store, ids: set<int>, t: Store, e: Listed, i: nat)
    requires Refreshed(s, ids, t) && e.id > 0 && !e.left && e.id in s.convs && !s.convs[e.id].left
    ensures Refreshed(s, ids + {e.id}, ReconcileOne(t, e, i, AllWork()).0)
  {
  }

  /** Listed conversations that are there and active are only refreshed. */
  lemma {:induction false} RefreshKeepsFlags(s: Store, list: seq<Listed>)
    requires forall e <- list :: e.id > 0 && !e.left && e.id in s.convs && !s.convs[e.id].left
    ensures Refreshed(s, Ids(list), ReconcileListed(s, list, AllWork()).0)
  {
    hide ReconcileOne, Ids, AllWork;
    if list == [] {
      NothingListed();
    } else {
      var front, last := list[..|list| - 1], list[|list| - 1];
      assert list == front + [last];
      assert forall e <- front :: e in list;
      assert last in list;
      RefreshKeepsFlags(s, front);
      IdsOfOneMore(front, last);
      hide Refreshed;
      OneMoreRefreshed(s, Ids(front), ReconcileListed(s, front, AllWork()).0, last, |list| - 1);
    }
  }

  lemma ListedAreActive(s: Store, list: seq<Listed>, t: Store, newly: set<int>)
    requires ValidList(list) && Exact(s, list, t, newly)
    ensures forall e <- list :: e.id in t.convs && !t.convs[e.id].left
  {
    forall e | e in list
      ensures e.id in t.convs && !t.convs[e.id].left
    {
      assert e.id in Ids(list);
    }
  }

  /** The same list a second time: nothing is reported, no left flag and no mark changes. */
  lemma SecondReconcileChangesNoFlag(s: Store, list: seq<Listed>)
    requires ValidList(list) && Positive(s)
    ensures var t := Reconcile(s, list, AllWork()).0;
            var (u, newly) := Reconcile(t, list, AllWork());
            && newly == {} && u.marks == t.marks
            && u.convs.Keys == t.convs.Keys && (forall id <- t.convs :: u.convs[id].left == t.convs[id].left)
  {
    var (t, left) := Reconcile(s, list, AllWork());
    ReconcileIsExact(s, list);
    ListedAreActive(s, list, t, left);
    RefreshKeepsFlags(t, list);
    AllWorked(t, list);
    AbsentUnchanged(t, list, AllWork());
    NoneAbsent(t, list);
    hide ReconcileListed, Ids, Absent, Exact;
    var listed := ReconcileListed(t, list, AllWork()).0;
    assert Absent(listed, Ids(list)) == {};
  }

  /** Where every active group is listed, no group is absent. */
  lemma NoneAbsent(t: Store, list: seq<Listed>)
    requires forall id <- t.convs :: t.convs[id].kind == Group ==> (t.convs[id].left <==> id !in Ids(list))
    ensures Absent(t, Ids(list)) == {}
  {
  }

  // ---- What becomes of each listed conversation ----

  /** The user had left the conversation, or cleared it, and is in it again. */
  predicate Rejoined(s: Store, e: Listed) {
    if e.id in s.convs then s.convs[e.id].left else ClearMark(s, e.id, true) > 0
  }

  /** The row of a listed conversation: as the server tells it, nothing unread after rejoining. */
  function RowFor(s: Store, e: Listed): Conv {
    Conv(e.kind, e.left, e.lastMessageId, if Rejoined(s, e) then 0 else e.unread, e.pinned, e.muted)
  }

  /** Its mark: what came before rejoining stays cleared. */
  function MarkFor(s: Store, e: Listed): int {
    if Rejoined(s, e) && e.lastMessageId > 0 then Max(ClearMark(s, e.id, true), e.lastMessageId) else ClearMark(s, e.id, true)
  }

  predicate DistinctIds(list: seq<Listed>) {
    forall i, j :: 0 <= i < j < |list| ==> list[i].id != list[j].id
  }

  predicate SetAsListed(s: Store, e: Listed, t: Store) {
    e.id in t.convs && t.convs[e.id] == RowFor(s, e) && ClearMark(t, e.id, true) == MarkFor(s, e)
  }

  lemma EntryIsSet(s: Store, e: Listed, i: nat, f: ReconcileFaults)
    requires e.id > 0 && ReconcileOne(s, e, i, f).1 && f.markRead(i)
    ensures SetAsListed(s, e, ReconcileOne(s, e, i, f).0)
  {
    assert f.leftRead(i);
  }

  /** Row and mark of a conversation decide what becomes of it. */
  lemma SetElsewhere(s: Store, e: Listed, t: Store, u: Store, other: bool)
    requires e.id > 0
    requires other ==> (e.id in s.convs <==> e.id in t.convs) && (e.id in s.convs ==> s.convs[e.id] == t.convs[e.id])
                       && ClearMark(s, e.id, true) == ClearMark(t, e.id, true) && SetAsListed(t, e, u)
    requires !other ==> SetAsListed(s, e, t) && (e.id in u.convs && u.convs[e.id] == t.convs[e.id])
                        && ClearMark(u, e.id, true) == ClearMark(t, e.id, true)
    ensures SetAsListed(s, e, u)
  {
  }

  lemma {:induction false} ListedAreSet(s: Store, list: seq<Listed>, f: ReconcileFaults, k: nat)
    requires k < |list| && DistinctIds(list) && forall e <- list :: e.id > 0 && !e.left
    requires ReconcileListed(s, list, f).1 && forall i: nat :: i < |list| ==> f.markRead(i)
    ensures SetAsListed(s, list[k], ReconcileListed(s, list, f).0)
  {
    hide ReconcileOne, SetAsListed, Ids, RowsListed, ClearMark;
    var front, last := list[..|list| - 1], list[|list| - 1];
    assert forall e <- front :: e in list;
    assert last in list;
    var t := ReconcileListed(s, front, f).0;
    var u := ReconcileListed(s, list, f).0;
    TouchesOwnEntry(t, last, |list| - 1, f);
    if k < |front| {
      ListedAreSet(s, front, f, k);
      assert list[k] == front[k] && list[k] in list && list[k].id != last.id;
      OtherRowKept(s, list[k], t, u);
    } else {
      ListedRows(s, front, f);
      NotListedYet(list);
      UnlistedAsBefore(s, Ids(front), t, last.id);
      EntryIsSet(t, last, |list| - 1, f);
      SetElsewhere(s, last, t, u, true);
    }
  }

  lemma NotListedYet(list: seq<Listed>)
    requires list != [] && DistinctIds(list)
    ensures list[|list| - 1].id !in Ids(list[..|list| - 1])
  {
  }

  lemma UnlistedAsBefore(s: Store, ids: set<int>, t: Store, id: int)
    requires RowsListed(s, ids, t) && id !in ids
    ensures (id in s.convs <==> id in t.convs) && (id in s.convs ==> s.convs[id] == t.convs[id])
    ensures ClearMark(s, id, true) == ClearMark(t, id, true)
  {
  }

  lemma OtherRowKept(s: Store, e: Listed, t: Store, u: Store)
    requires e.id > 0 && SetAsListed(s, e, t)
    requires e.id in t.convs ==> e.id in u.convs && u.convs[e.id] == t.convs[e.id]
    requires e.id in u.marks <==> e.id in t.marks
    requires e.id in t.marks ==> u.marks[e.id] == t.marks[e.id]
    ensures SetAsListed(s, e, u)
  {
    SetElsewhere(s, e, t, u, false);
  }

  /**
   A reconciliation whose statements work gives every listed conversation the server's row, and one that
   was rejoined no unread messages and a mark at its last message: later requests start above what was
   missed or cleared. Any other conversation keeps its mark.
   */
  lemma ReconcileSetsListed(s: Store, list: seq<Listed>, k: nat, afterId: int)
    requires ValidList(list) && DistinctIds(list) && k < |list|
    ensures var t := Reconcile(s, list, AllWork()).0;
            && SetAsListed(s, list[k], t)
            && (Rejoined(s, list[k]) ==> t.convs[list[k].id].unread == 0)
            && (Rejoined(s, list[k]) && list[k].lastMessageId > 0 ==> SyncFrom(t, list[k].id, afterId, true) >= list[k].lastMessageId)
            && (!Rejoined(s, list[k]) ==> t.convs[list[k].id].unread == list[k].unread)
  {
    var f := AllWork();
    var listed := ReconcileListed(s, list, f).0;
    var (t, newly) := Reconcile(s, list, f);
    AllWorked(s, list);
    ListedAreSet(s, list, f, k);
    assert list[k] in list && list[k].id in Ids(list);
    hide ReconcileListed, Ids, RowsListed;
    assert newly == Absent(listed, Ids(list)) && t == LeaveAll(listed, newly);
    assert list[k].id !in newly;
    OtherRowKept(s, list[k], listed, t);
  }

  /** Leaving a group: it is marked, nothing of the others changes, and it is not reported as left again. */
  lemma LeftIsNotReported(s: Store, c: int, list: seq<Listed>)
    requires Valid(s) && ValidList(list) && c > 0 && c in s.convs && c !in Ids(list)
    ensures var t := Step(s, Left(c, true));
            && t.convs[c] == s.convs[c].(left := true, unread := 0, pinned := false, muted := false)
            && t == s.(convs := s.convs[c := t.convs[c]])
            && c !in Reconcile(t, list, AllWork()).1
            && Step(t, Left(c, false)) == t.(convs := t.convs[c := t.convs[c].(left := false)])
  {
    var t := Step(s, Left(c, true));
    AllWorked(t, list);
    ListedRows(t, list, AllWork());
    hide ReconcileListed, Ids;
  }

  /** Every statement of the reconciliation has worked. */
  ghost predicate Worked(s: Store, list: seq<Listed>, f: ReconcileFaults) {
    var (listed, ok) := ReconcileListed(s, list, f);
    ok && f.scanned && forall id <- Absent(listed, Ids(list)) :: f.markedLeft(id)
  }

  /** Whatever fails, the listed entries touch no row that is not listed. */
  lemma {:induction false} UnlistedUntouched(s: Store, list: seq<Listed>, f: ReconcileFaults, id: int)
    requires forall e <- list :: e.id != id
    ensures var t := ReconcileListed(s, list, f).0;
            (id in t.convs <==> id in s.convs) && (id in s.convs ==> t.convs[id] == s.convs[id])
  {
    if list != [] {
      var last := |list| - 1;
      assert list[last] in list;
      UnlistedUntouched(s, list[..last], f, id);
      OneUntouched(ReconcileListed(s, list[..last], f).0, list[last], last, f, id);
      hide ReconcileOne;
    }
  }

  lemma OneUntouched(s: Store, e: Listed, i: nat, f: ReconcileFaults, id: int)
    requires e.id != id
    ensures var t := ReconcileOne(s, e, i, f).0;
            (id in t.convs <==> id in s.convs) && (id in s.convs ==> t.convs[id] == s.convs[id])
  {
  }

  /**
   A reconciliation is exact, and reports the groups newly left, exactly when every statement of it has
   worked and a transaction, if there was one, is committed; otherwise it reports none, and in a
   transaction changes nothing. An empty list is not evidence of anything.
   */
  lemma ReconcileReportsExactlyWhen(s: Store, list: seq<Listed>, f: ReconcileFaults)
    requires forall e <- list :: e.id > 0 && !e.left
    ensures var (t, newly) := Reconcile(s, list, f);
            if list == [] then t == s && newly == {}
            else if Worked(s, list, f) && (f.transaction ==> f.commit) then Exact(s, list, t, newly)
            else newly == {} && (f.transaction ==> t == s)
  {
    var (t, newly) := Reconcile(s, list, f);
    var (listed, ok) := ReconcileListed(s, list, f);
    SomeOrAll(Absent(listed, Ids(list)), f);
    if list != [] && Worked(s, list, f) && (f.transaction ==> f.commit) {
      ListedRows(s, list, f);
      AbsentUnchanged(s, list, f);
      hide ReconcileListed, Ids;
      assert Exact(s, list, LeaveAll(listed, newly), newly);
    }
  }

  /** Whatever fails, a row the list does not name changes only by being marked as left, by a statement that works. */
  lemma UnlistedOnlyLeaves(s: Store, list: seq<Listed>, f: ReconcileFaults, id: int)
    requires id in s.convs && forall e <- list :: e.id != id
    ensures var t := Reconcile(s, list, f).0;
            && id in t.convs
            && (t.convs[id] == s.convs[id]
                || (f.scanned && f.markedLeft(id) && s.convs[id].kind == Group && !s.convs[id].left
                    && t.convs[id] == s.convs[id].(left := true, unread := 0, pinned := false, muted := false)))
  {
    UnlistedUntouched(s, list, f, id);
    hide ReconcileListed, Ids;
  }

  lemma SomeOrAll(absent: set<int>, f: ReconcileFaults)
    ensures (set id <- absent | f.markedLeft(id) :: id) == absent <==> forall id <- absent :: f.markedLeft(id)
  {
    var marked := set id <- absent | f.markedLeft(id) :: id;
    if marked == absent {
      forall id | id in absent
        ensures f.markedLeft(id)
      {
        assert id in marked;
      }
    }
    if forall id <- absent :: f.markedLeft(id) {
      forall id
        ensures id in marked <==> id in absent
      {
      }
    }
  }

  // ---- The store in place ----

  class LocalStore {
    var convs: map<int, Conv>
    var messages: map<int, int>
    var marks: map<int, int>
    var outbox: map<int, int>
    var senderKeys: set<int>
    var plaintexts: set<int>

    constructor ()
      ensures View() == Store(map[], map[], map[], map[], {}, {})
    {
      convs, messages, marks, outbox, senderKeys, plaintexts := map[], map[], map[], map[], {}, {};
    }

    function View(): Store
      reads this
    {
      Store(convs, messages, marks, outbox, senderKeys, plaintexts)
    }

    method Rollback(saved: Store)
      modifies this
      ensures View() == saved
    {
      convs, messages, marks := saved.convs, saved.messages, saved.marks;
      outbox, senderKeys, plaintexts := saved.outbox, saved.senderKeys, saved.plaintexts;
    }

    /** SELECT COALESCE(MAX(message_id), 0) ... */
    method MaxMessageId(c: int) returns (m: int)
      requires Valid(View())
      ensures m == LargestMessage(View(), c)
    {
      m := 0;
      var todo := messages.Keys;
      while todo != {}
        invariant todo <= messages.Keys
        invariant m >= 0 && (m == 0 || m in MessagesOf(View(), c))
        invariant forall id <- MessagesOf(View(), c) :: id in todo || id <= m
      {
        ghost var some := Member(todo);
        var id :| id in todo;
        if messages[id] == c && id > m {
          m := id;
        }
        todo := todo - {id};
      }
    }

    method DeleteConversationRows(c: int, d: DeleteFaults) returns (ok: bool)
      modifies this
      ensures View() == DeleteRows(old(View()), c, d) && ok == d.AllWork()
    {
      var ids := MessagesOf(View(), c);
      var waiting := set k <- outbox | outbox[k] == c :: k;
      if d.plaintexts {
        plaintexts := plaintexts - ids;
      }
      if d.messages {
        messages := messages - ids;
      }
      if d.keys {
        senderKeys := senderKeys - {c};
      }
      if d.outbox {
        outbox := outbox - waiting;
      }
      if d.row {
        convs := convs - {c};
      }
      return d.AllWork();
    }

    method PurgeConversation(c: int, serverWatermark: int, f: PurgeFaults) returns (done: bool)
      requires Valid(View())
      modifies this
      ensures (View(), done) == Purge(old(View()), c, serverWatermark, f)
    {
      if c <= 0 {
        return false;
      }
      var saved := View();
      var watermark := Max(ClearMark(View(), c, f.markRead), serverWatermark);
      if f.maxRead {
        var largest := MaxMessageId(c);
        watermark := Max(watermark, largest);
      } else {
        watermark := Max(watermark, 0);
      }
      watermark := Max(watermark, if f.lastRead && c in convs then convs[c].lastMessageId else 0);
      var ok := f.markWritten;
      if f.markWritten {
        marks := marks[c := watermark];
      }
      var deleted := DeleteConversationRows(c, f.deletes);
      ok := ok && deleted;
      if !ok {
        if f.transaction {
          Rollback(saved);
        }
        return false;
      }
      if f.transaction && !f.commit {
        Rollback(saved);
        return false;
      }
      return true;
    }

    /** One entry of the server's list. */
    method ReconcileEntry(e: Listed, i: nat, f: ReconcileFaults) returns (worked: bool)
      modifies this
      ensures (View(), worked) == ReconcileOne(old(View()), e, i, f)
    {
      hide ApplyRejoin;
      if e.id <= 0 {
        return true;
      }
      worked := true;
      var rowExists, wasLeft := false, false;
      if !f.leftRead(i) {
        worked := false;
      } else if e.id in convs {
        rowExists, wasLeft := true, convs[e.id].left;
      }
      var existingMark := ClearMark(View(), e.id, f.markRead(i));
      var rejoined := wasLeft || (!rowExists && existingMark > 0);
      if !f.upserted(i) {
        return false;
      }
      convs := convs[e.id := Conv(e.kind, e.left, e.lastMessageId, e.unread, e.pinned, e.muted)];
      if rejoined {
        var raised := RaiseFloor(e, f.floorWritten(i), f.unreadReset(i));
        worked := worked && raised;
      }
    }

    /** A conversation joined again: its mark goes up to the server's last message, nothing is unread. */
    method RaiseFloor(e: Listed, floorWritten: bool, unreadReset: bool) returns (worked: bool)
      requires e.id in convs
      modifies this
      ensures View() == ApplyRejoin(old(View()), e, floorWritten, unreadReset)
      ensures worked <==> unreadReset && (e.lastMessageId > 0 ==> floorWritten)
    {
      worked := true;
      if e.lastMessageId > 0 {
        if floorWritten {
          marks := marks[e.id := if e.id in marks then Max(marks[e.id], e.lastMessageId) else e.lastMessageId];
        } else {
          worked := false;
        }
      }
      if unreadReset {
        convs := convs[e.id := convs[e.id].(unread := 0)];
      } else {
        worked := false;
      }
    }

    /** Marks the groups one by one; those that could be marked are returned. */
    method MarkLeft(absent: set<int>, f: ReconcileFaults) returns (newlyLeft: set<int>)
      requires absent <= convs.Keys
      modifies this`convs
      ensures newlyLeft == set id <- absent | f.markedLeft(id) :: id
      ensures View() == LeaveAll(old(View()), newlyLeft)
    {
      newlyLeft := {};
      var todo := absent;
      NobodyLeaves(View());
      while todo != {}
        invariant todo <= absent <= convs.Keys
        invariant newlyLeft == set id <- absent | id !in todo && f.markedLeft(id) :: id
        invariant convs == LeaveAll(old(View()), newlyLeft).convs
      {
        ghost var some := Member(todo);
        var id :| id in todo;
        if f.markedLeft(id) {
          OneMoreLeaves(old(View()), newlyLeft, id);
          convs := convs[id := convs[id].(left := true, unread := 0, pinned := false, muted := false)];
          newlyLeft := newlyLeft + {id};
        }
        todo := todo - {id};
      }
    }

    method ReconcileConversations(list: seq<Listed>, f: ReconcileFaults) returns (newlyLeft: set<int>)
      modifies this
      ensures (View(), newlyLeft) == Reconcile(old(View()), list, f)
    {
      var saved := View();
      var present: set<int> := {};
      var ok := true;
      for i := 0 to |list|
        invariant (View(), ok) == ReconcileListed(saved, list[..i], f)
        invariant present == Ids(list[..i])
      {
        assert list[..i + 1][..i] == list[..i];
        hide ReconcileOne;
        var worked := ReconcileEntry(list[i], i, f);
        ok := ok && worked;
        if list[i].id > 0 {
          present := present + {list[i].id};
        }
      }
      assert list[..|list|] == list;
      if list == [] {
        return {}; // an empty list is not evidence of anything
      }
      hide ReconcileListed, ReconcileOne, Ids;
      var absent := if f.scanned then Absent(View(), present) else {};
      newlyLeft := MarkLeft(absent, f);
      ok := ok && f.scanned && newlyLeft == absent;
      if !ok {
        if f.transaction {
          Rollback(saved);
        }
        return {};
      }
      if f.transaction && !f.commit {
        Rollback(saved);
        return {};
      }
    }
  }

  lemma NobodyLeaves(s: Store)
    ensures LeaveAll(s, {}).convs == s.convs
  {
  }

  lemma OneMoreLeaves(s: Store, ids: set<int>, id: int)
    requires id in s.convs && id !in ids
    ensures LeaveAll(s, ids + {id}).convs
         == LeaveAll(s, ids).convs[id := s.convs[id].(left := true, unread := 0, pinned := false, muted := false)]
  {
  }
}
