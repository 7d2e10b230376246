/**
 One uploaded file on the server, at the granularity of single database statements and storage
 calls: completion requests, cancellations, senders and the three rounds of the maintenance task
 interleave in any order.

 `FileState` is the file's row, its object, the number of undeleted messages that refer to it, and
 how far each handler has got. A storage removal may fail and may, failing, still have taken the
 object away.
 */
module FileLifecycle {
  import opened ObjectStorage
  import opened Wrappers

  datatype Status = Absent | Uploading | Ready | Cancelled | Failed

  datatype Completion = WillFinalize | WillMarkReady | WillMarkFailed | WillRemove
  datatype Cancellation = WillCancel | WillErase
  datatype Maintenance =
    | Resting
    | StaleListed | StaleRemoved
    | TerminalListed | TerminalChecked | TerminalRemoved | TerminalRechecked
    | OrphanListed

  datatype FileState = FileState(
    status: Status,
    blob: bool,
    refs: nat,
    completions: map<nat, Completion>,
    cancellations: map<nat, Cancellation>,
    maintenance: Maintenance
  )

  /** Sending the same chunks again would only fail again. */
  predicate DataFault(result: FinalizeStatus) {
    result in {ChunkSizeMismatch, ChecksumMismatch, InvalidArguments}
  }

  /** How a storage removal ends: everything gone, or not. */
  datatype Removal = Removed | Partly(blobGone: bool)

  datatype Event =
    | CompletionReads(i: nat)
    | CompletionFinalizes(i: nat, result: FinalizeStatus)
    | CompletionMarksReady(i: nat, works: bool)
    | CompletionMarksFailed(i: nat, works: bool)
    | CompletionRemoves(i: nat, removal: Removal)
    | CancelReads(j: nat)
    | CancelMarks(j: nat, works: bool)
    | CancelRemoves(j: nat, removal: Removal)
    | StaleLists
    | StaleRemoves(removal: Removal)
    | StaleMarks(works: bool)
    | TerminalLists
    | TerminalChecks(works: bool)
    | TerminalRemoves(removal: Removal)
    | TerminalRechecks(works: bool)
    | TerminalDeletes(works: bool)
    | OrphanLists
    | OrphanCancels(works: bool)
    | MessageInserted
    | MessageDeleted

  function Created(): FileState {
    FileState(Uploading, false, 0, map[], map[], Resting)
  }

  function Erase(s: FileState, removal: Removal): FileState {
    if removal == Removed || removal.blobGone then s.(blob := false) else s
  }

  /** UPDATE ... WHERE status = 'uploading' */
  function Leave(s: FileState, to: Status, works: bool): FileState {
    if works && s.status == Uploading then s.(status := to) else s
  }

  predicate At(s: FileState, i: nat, stage: Completion) {
    i in s.completions && s.completions[i] == stage
  }

  function Goto(s: FileState, i: nat, stage: Completion): FileState {
    s.(completions := s.completions[i := stage])
  }

  function Finish(s: FileState, i: nat): FileState {
    s.(completions := s.completions - {i})
  }

  function Step(s: FileState, e: Event): FileState {
    match e
    case CompletionReads(i) =>
      if i !in s.completions && s.status == Uploading then Goto(s, i, WillFinalize) else s
    case CompletionFinalizes(i, result) =>
      if !At(s, i, WillFinalize) then s
      else if s.blob || result == Ok then Goto(s, i, WillMarkReady).(blob := true)
      else if DataFault(result) then Goto(s, i, WillMarkFailed)
      else Finish(s, i)
    case CompletionMarksReady(i, works) =>
      if At(s, i, WillMarkReady) then Finish(Leave(s, Ready, works), i) else s
    case CompletionMarksFailed(i, works) => // the outcome is not looked at
      if At(s, i, WillMarkFailed) then Goto(Leave(s, Failed, works), i, WillRemove) else s
    case CompletionRemoves(i, removal) =>
      if At(s, i, WillRemove) then Finish(Erase(s, removal), i) else s
    case CancelReads(j) =>
      if j !in s.cancellations && s.status == Uploading
      then s.(cancellations := s.cancellations[j := WillCancel]) else s
    case CancelMarks(j, works) =>
      if j in s.cancellations && s.cancellations[j] == WillCancel then
        if works && s.status == Uploading
        then Leave(s, Cancelled, works).(cancellations := s.cancellations[j := WillErase])
        else s.(cancellations := s.cancellations - {j})
      else s
    case CancelRemoves(j, removal) =>
      if j in s.cancellations && s.cancellations[j] == WillErase
      then Erase(s, removal).(cancellations := s.cancellations - {j}) else s
    case StaleLists =>
      if s.maintenance == Resting && s.status == Uploading then s.(maintenance := StaleListed) else s
    case StaleRemoves(removal) =>
      if s.maintenance == StaleListed
      then Erase(s, removal).(maintenance := if removal == Removed then StaleRemoved else Resting) else s
    case StaleMarks(works) =>
      if s.maintenance == StaleRemoved then Leave(s, Cancelled, works).(maintenance := Resting) else s
    case TerminalLists =>
      if s.maintenance == Resting && s.status in {Cancelled, Failed} then s.(maintenance := TerminalListed) else s
    case TerminalChecks(works) =>
      if s.maintenance == TerminalListed
      then s.(maintenance := if works && s.refs == 0 then TerminalChecked else Resting) else s
    case TerminalRemoves(removal) =>
      if s.maintenance == TerminalChecked
      then Erase(s, removal).(maintenance := if removal == Removed then TerminalRemoved else Resting) else s
    case TerminalRechecks(works) =>
      if s.maintenance == TerminalRemoved
      then s.(maintenance := if works && s.refs == 0 then TerminalRechecked else Resting) else s
    case TerminalDeletes(works) =>
      if s.maintenance == TerminalRechecked
      then s.(status := if works then Absent else s.status, maintenance := Resting) else s
    case OrphanLists =>
      if s.maintenance == Resting && s.status == Ready && s.refs == 0 then s.(maintenance := OrphanListed) else s
    case OrphanCancels(works) => // one statement checks and cancels
      if s.maintenance == OrphanListed
      then s.(status := if works && s.status == Ready && s.refs == 0 then Cancelled else s.status, maintenance := Resting)
      else s
    case MessageInserted => // INSERT ... WHERE EXISTS (... status = 'ready')
      if s.status == Ready then s.(refs := s.refs + 1) else s
    case MessageDeleted =>
      if s.refs > 0 then s.(refs := s.refs - 1) else s
  }

  function Run(es: seq<Event>): FileState {
    if es == [] then Created() else Step(Run(es[..|es| - 1]), es[|es| - 1])
  }

  // ---- Attached files stay ready ----

  predicate Terminal(status: Status) {
    status in {Cancelled, Failed, Absent}
  }

  /** Messages refer to ready files only; whoever is about to delete for good works on a terminal one. */
  predicate Attached(s: FileState) {
    && (s.refs > 0 ==> s.status == Ready)
    && (s.maintenance in {TerminalListed, TerminalChecked, TerminalRemoved, TerminalRechecked} ==> Terminal(s.status))
    && (forall j <- s.cancellations :: s.cancellations[j] == WillErase ==> Terminal(s.status))
  }

  lemma StepKeepsAttached(s: FileState, e: Event)
    requires Attached(s)
    ensures Attached(Step(s, e))
  {
  }

  /** However everything interleaves: a file that an undeleted message refers to has its row, in status ready. */
  lemma {:induction false} AttachedFilesStayReady(es: seq<Event>)
    ensures Attached(Run(es)) && (Run(es).refs > 0 ==> Run(es).status == Ready)
  {
    if es != [] {
      AttachedFilesStayReady(es[..|es| - 1]);
      StepKeepsAttached(Run(es[..|es| - 1]), es[|es| - 1]);
      hide Step;
    }
  }

  // ---- Ready files have their object ----

  predicate Sound(s: FileState) {
    s.status == Ready ==> s.blob
  }

  /** The three ways a single step can leave a ready file without its object. */
  predicate Breaks(s: FileState, e: Event) {
    // an object is removed by a handler that found the file uploading, and meanwhile it is ready
    || (s.status == Ready && e.StaleRemoves? && s.maintenance == StaleListed && (e.removal == Removed || e.removal.blobGone))
    || (s.status == Ready && e.CompletionRemoves? && At(s, e.i, WillRemove) && (e.removal == Removed || e.removal.blobGone))
    // the file is marked ready after the object it was assembled to has been removed
    || (e.CompletionMarksReady? && At(s, e.i, WillMarkReady) && e.works && s.status == Uploading && !s.blob)
  }

  lemma StepBreaks(s: FileState, e: Event)
    requires Attached(s) && Sound(s)
    ensures !Sound(Step(s, e)) <==> Breaks(s, e)
  {
  }

  /** A run keeps every ready file's object all along exactly when none of its steps is one of these. */
  lemma {:induction false} BreaksExactlyWhen(es: seq<Event>)
    ensures (forall k :: 0 <= k <= |es| ==> Sound(Run(es[..k])))
       <==> forall k :: 0 <= k < |es| ==> !Breaks(Run(es[..k]), es[k])
  {
    hide Step, Run, Sound, Breaks, Attached;
    if es == [] {
      CreatedSound();
    } else {
      var last := |es| - 1;
      var front := es[..last];
      BreaksExactlyWhen(front);
      assert forall k :: 0 <= k <= last ==> front[..k] == es[..k];
      assert es[..|es|] == es;
      AttachedFilesStayReady(front);
      if Sound(Run(front)) {
        StepBreaks(Run(front), es[last]);
      }
      RunStep(es);
      if forall k :: 0 <= k <= |es| ==> Sound(Run(es[..k])) {
        forall k | 0 <= k <= last
          ensures Sound(Run(front[..k]))
        {
          assert Sound(Run(es[..k]));
        }
        assert Sound(Run(es[..last])) && Sound(Run(es[..|es|]));
      }
      if forall k :: 0 <= k < |es| ==> !Breaks(Run(es[..k]), es[k]) {
        forall k | 0 <= k < last
          ensures !Breaks(Run(front[..k]), front[k])
        {
          assert !Breaks(Run(es[..k]), es[k]);
        }
        assert Sound(Run(front[..last]));
        assert !Breaks(Run(es[..last]), es[last]);
        forall k | 0 <= k <= |es|
          ensures Sound(Run(es[..k]))
        {
          if k <= last {
            assert Sound(Run(front[..k]));
          }
        }
      }
    }
  }

  lemma CreatedSound()
    ensures Sound(Run([]))
  {
  }

  lemma RunStep(es: seq<Event>)
    requires es != []
    ensures Run(es) == Step(Run(es[..|es| - 1]), es[|es| - 1])
  {
    hide Step;
  }

  /** Completions of the file one after another, and none while the stale round is at it. */
  predicate Serialised(s: FileState, e: Event) {
    && (e.CompletionReads? ==> s.completions == map[] && s.maintenance !in {StaleListed, StaleRemoved})
    && (e.StaleLists? ==> s.completions == map[])
  }

  /** What the completion in progress, if any, can rely on. */
  predicate Exclusive(s: FileState) {
    && (forall i <- s.completions, j <- s.completions :: i == j)
    && (s.maintenance in {StaleListed, StaleRemoved} ==> s.completions == map[] && s.status != Ready)
    && (forall i <- s.completions :: s.status != Ready && (s.completions[i] == WillMarkReady && s.status == Uploading ==> s.blob))
  }

  predicate OfCompletion(e: Event) {
    e.CompletionReads? || e.CompletionFinalizes? || e.CompletionMarksReady? || e.CompletionMarksFailed? || e.CompletionRemoves?
  }

  lemma CompletionKeepsExclusive(s: FileState, e: Event)
    requires Attached(s) && Sound(s) && Exclusive(s) && Serialised(s, e) && OfCompletion(e)
    ensures Exclusive(Step(s, e)) && Sound(Step(s, e))
  {
    match e {
      case CompletionReads(i) =>
      case CompletionFinalizes(i, _) =>
      case CompletionMarksReady(i, _) => if At(s, i, WillMarkReady) { LastCompletion(s, i); }
      case CompletionMarksFailed(i, _) =>
      case CompletionRemoves(i, _) => if At(s, i, WillRemove) { LastCompletion(s, i); }
    }
  }

  lemma OtherKeepsExclusive(s: FileState, e: Event)
    requires Attached(s) && Sound(s) && Exclusive(s) && Serialised(s, e) && !OfCompletion(e)
    ensures Exclusive(Step(s, e)) && Sound(Step(s, e))
  {
  }

  lemma StepKeepsExclusive(s: FileState, e: Event)
    requires Attached(s) && Sound(s) && Exclusive(s) && Serialised(s, e)
    ensures Exclusive(Step(s, e)) && Sound(Step(s, e))
  {
    hide Attached, Sound, Exclusive, Serialised, Step;
    if OfCompletion(e) {
      CompletionKeepsExclusive(s, e);
    } else {
      OtherKeepsExclusive(s, e);
    }
  }

  lemma LastCompletion(s: FileState, i: nat)
    requires Exclusive(s) && i in s.completions
    ensures s.completions - {i} == map[]
  {
  }

  predicate AllSerialised(es: seq<Event>) {
    es == [] || (AllSerialised(es[..|es| - 1]) && Serialised(Run(es[..|es| - 1]), es[|es| - 1]))
  }

  /** With completions serialised, an undeleted message's file is ready and its object is there. */
  lemma {:induction false} NoDanglingAttachment(es: seq<Event>)
    requires AllSerialised(es)
    ensures Sound(Run(es)) && Exclusive(Run(es))
    ensures Run(es).refs > 0 ==> Run(es).status == Ready && Run(es).blob
  {
    AttachedFilesStayReady(es);
    if es != [] {
      NoDanglingAttachment(es[..|es| - 1]);
      AttachedFilesStayReady(es[..|es| - 1]);
      hide Step, Attached, Exclusive;
      StepKeepsExclusive(Run(es[..|es| - 1]), es[|es| - 1]);
    }
  }

  function RunFrom(s: FileState, es: seq<Event>): FileState {
    if es == [] then s else Step(RunFrom(s, es[..|es| - 1]), es[|es| - 1])
  }

  lemma {:induction false} RunIsRunFrom(es: seq<Event>)
    ensures Run(es) == RunFrom(Created(), es)
  {
    if es != [] {
      RunIsRunFrom(es[..|es| - 1]);
    }
  }

  lemma {:induction false} RunFromSplits(s: FileState, es: seq<Event>, more: seq<Event>)
    ensures RunFrom(s, es + more) == RunFrom(RunFrom(s, es), more)
  {
    if more == [] {
      assert es + more == es;
    } else {
      assert (es + more)[..|es + more| - 1] == es + more[..|more| - 1];
      RunFromSplits(s, es, more[..|more| - 1]);
    }
  }

  lemma RunFromFirst(s: FileState, e: Event, more: seq<Event>)
    ensures RunFrom(s, [e] + more) == RunFrom(Step(s, e), more)
  {
    RunFromSplits(s, [e], more);
    assert [e][..0] == [];
  }

  /** The stale round removes what a completion, overlapping it, has just made ready. */
  lemma DanglingThroughStaleRound()
    ensures var s := Run([CompletionReads(0), StaleLists, CompletionFinalizes(0, Ok)]
                         + [CompletionMarksReady(0, true), MessageInserted, StaleRemoves(Removed)]);
            s.refs == 1 && s.status == Ready && !s.blob
  {
    hide Step, RunFrom, Run;
    var first := [CompletionReads(0), StaleLists, CompletionFinalizes(0, Ok)];
    var second := [CompletionMarksReady(0, true), MessageInserted, StaleRemoves(Removed)];
    RunIsRunFrom(first + second);
    RunFromSplits(Created(), first, second);
    RunThree(Created(), CompletionReads(0), StaleLists, CompletionFinalizes(0, Ok));
    ListedAndAssembled();
    var s := FileState(Uploading, true, 0, map[0 := WillMarkReady], map[], StaleListed);
    RunThree(s, CompletionMarksReady(0, true), MessageInserted, StaleRemoves(Removed));
    ReadyReaped();
  }

  lemma ListedAndAssembled()
    ensures Step(Step(Step(Created(), CompletionReads(0)), StaleLists), CompletionFinalizes(0, Ok))
         == FileState(Uploading, true, 0, map[0 := WillMarkReady], map[], StaleListed)
  {
  }

  lemma ReadyReaped()
    ensures var s := FileState(Uploading, true, 0, map[0 := WillMarkReady], map[], StaleListed);
            var u := Step(Step(Step(s, CompletionMarksReady(0, true)), MessageInserted), StaleRemoves(Removed));
            u.refs == 1 && u.status == Ready && !u.blob
  {
  }

  /** Of two overlapping completions one finds the data faulty, the other, chunks resent, makes the file ready. */
  lemma DanglingThroughTwoCompletions()
    ensures var s := Run([CompletionReads(0), CompletionReads(1), CompletionFinalizes(0, ChecksumMismatch)]
                         + [CompletionFinalizes(1, Ok), CompletionMarksReady(1, true), CompletionMarksFailed(0, true)]
                         + [MessageInserted, CompletionRemoves(0, Removed)]);
            s.refs == 1 && s.status == Ready && !s.blob
  {
    hide Step, RunFrom, Run;
    var first := [CompletionReads(0), CompletionReads(1), CompletionFinalizes(0, ChecksumMismatch)];
    var second := [CompletionFinalizes(1, Ok), CompletionMarksReady(1, true), CompletionMarksFailed(0, true)];
    var third := [MessageInserted, CompletionRemoves(0, Removed)];
    RunIsRunFrom(first + second + third);
    RunFromSplits(Created(), first + second, third);
    RunFromSplits(Created(), first, second);
    RunThree(Created(), CompletionReads(0), CompletionReads(1), CompletionFinalizes(0, ChecksumMismatch));
    FaultFound();
    var s := FileState(Uploading, false, 0, map[0 := WillMarkFailed, 1 := WillFinalize], map[], Resting);
    RunThree(s, CompletionFinalizes(1, Ok), CompletionMarksReady(1, true), CompletionMarksFailed(0, true));
    MadeReady();
    var t := FileState(Ready, true, 0, map[0 := WillRemove], map[], Resting);
    RunTwo(t, MessageInserted, CompletionRemoves(0, Removed));
    ReadyRemoved();
  }

  lemma FaultFound()
    ensures Step(Step(Step(Created(), CompletionReads(0)), CompletionReads(1)), CompletionFinalizes(0, ChecksumMismatch))
         == FileState(Uploading, false, 0, map[0 := WillMarkFailed, 1 := WillFinalize], map[], Resting)
  {
  }

  lemma MadeReady()
    ensures var s := FileState(Uploading, false, 0, map[0 := WillMarkFailed, 1 := WillFinalize], map[], Resting);
            Step(Step(Step(s, CompletionFinalizes(1, Ok)), CompletionMarksReady(1, true)), CompletionMarksFailed(0, true))
            == FileState(Ready, true, 0, map[0 := WillRemove], map[], Resting)
  {
  }

  lemma ReadyRemoved()
    ensures var t := FileState(Ready, true, 0, map[0 := WillRemove], map[], Resting);
            var u := Step(Step(t, MessageInserted), CompletionRemoves(0, Removed));
            u.refs == 1 && u.status == Ready && !u.blob
  {
  }

  lemma RunThree(s: FileState, a: Event, b: Event, c: Event)
    ensures RunFrom(s, [a, b, c]) == Step(Step(Step(s, a), b), c)
  {
    hide Step;
    RunFromFirst(s, a, [b, c]);
    RunFromFirst(Step(s, a), b, [c]);
    RunFromFirst(Step(Step(s, a), b), c, []);
    assert [a, b, c] == [a] + [b, c] && [b, c] == [b] + [c] && [c] == [c] + [];
  }

  // ---- The handlers in place ----

  /** How storage and database answer one handler. */
  datatype Faults = Faults(finalize: FinalizeStatus, removal: Removal, writeWorks: bool, queryWorks: bool)

  datatype Outcome =
    | Complete | AlreadyComplete | MissingChunks | StorageFailed | Faulty | NotInProgress | NotRecorded
    | CancelledNow | AlreadyCancelled

  /** No handler is half-way through. */
  predicate AtRest(s: FileState) {
    s.completions == map[] && s.cancellations == map[] && s.maintenance == Resting
  }

  /** A completion request served without interruption. */
  function Completed(s: FileState, f: Faults): FileState {
    if s.status != Uploading then s
    else if s.blob || f.finalize == Ok then Leave(s.(blob := true), Ready, f.writeWorks)
    else if DataFault(f.finalize) then Erase(Leave(s, Failed, f.writeWorks), f.removal)
    else s
  }

  /** Every statement a completion may come to; each takes effect only where the handler has got to it. */
  function CompletionSteps(f: Faults): seq<Event> {
    [CompletionReads(0), CompletionFinalizes(0, f.finalize)]
    + [CompletionMarksReady(0, f.writeWorks), CompletionMarksFailed(0, f.writeWorks), CompletionRemoves(0, f.removal)]
  }

  /** A completion, undisturbed, is its steps of the interleaving model taken one after another. */
  lemma CompletionIsSteps(s: FileState, f: Faults)
    requires s.completions == map[]
    ensures Completed(s, f) == RunFrom(s, CompletionSteps(f))
  {
    hide RunFrom, Step, Completed;
    var first := [CompletionReads(0), CompletionFinalizes(0, f.finalize)];
    var second := [CompletionMarksReady(0, f.writeWorks), CompletionMarksFailed(0, f.writeWorks), CompletionRemoves(0, f.removal)];
    RunFromSplits(s, first, second);
    RunTwo(s, CompletionReads(0), CompletionFinalizes(0, f.finalize));
    RunThree(Step(Step(s, CompletionReads(0)), CompletionFinalizes(0, f.finalize)),
             CompletionMarksReady(0, f.writeWorks), CompletionMarksFailed(0, f.writeWorks), CompletionRemoves(0, f.removal));
    FinalizedThenMarked(s, f);
  }

  /** How far the first two statements bring it. */
  function Finalized(s: FileState, f: Faults): FileState {
    if s.status != Uploading then s
    else if s.blob || f.finalize == Ok then s.(blob := true, completions := map[0 := WillMarkReady])
    else if DataFault(f.finalize) then s.(completions := map[0 := WillMarkFailed])
    else s
  }

  lemma FinalizedThenMarked(s: FileState, f: Faults)
    requires s.completions == map[]
    ensures Step(Step(Step(Step(Step(s, CompletionReads(0)), CompletionFinalizes(0, f.finalize)), CompletionMarksReady(0, f.writeWorks)),
                      CompletionMarksFailed(0, f.writeWorks)), CompletionRemoves(0, f.removal))
         == Completed(s, f)
  {
    assert Step(Step(s, CompletionReads(0)), CompletionFinalizes(0, f.finalize)) == Finalized(s, f) by {
      assert map[0 := WillFinalize] - {0} == map[];
    }
    MarkedAfter(s, f);
    hide Step;
  }

  lemma MarkedAfter(s: FileState, f: Faults)
    requires s.completions == map[]
    ensures Step(Step(Step(Finalized(s, f), CompletionMarksReady(0, f.writeWorks)), CompletionMarksFailed(0, f.writeWorks)),
                 CompletionRemoves(0, f.removal))
         == Completed(s, f)
  {
    assert map[0 := WillMarkReady] - {0} == map[] && map[0 := WillRemove] - {0} == map[];
  }

  /** A cancellation served without interruption. */
  function CancelledUpload(s: FileState, f: Faults): FileState {
    if s.status == Uploading && f.writeWorks then Erase(s.(status := Cancelled), f.removal) else s
  }

  function CancellationSteps(f: Faults): seq<Event> {
    [CancelReads(0), CancelMarks(0, f.writeWorks), CancelRemoves(0, f.removal)]
  }

  lemma CancellationIsSteps(s: FileState, f: Faults)
    requires s.cancellations == map[]
    ensures CancelledUpload(s, f) == RunFrom(s, CancellationSteps(f))
  {
    hide RunFrom, Step, CancelledUpload;
    RunThree(s, CancelReads(0), CancelMarks(0, f.writeWorks), CancelRemoves(0, f.removal));
    CancelStatements(s, f);
  }

  lemma CancelStatements(s: FileState, f: Faults)
    requires s.cancellations == map[]
    ensures Step(Step(Step(s, CancelReads(0)), CancelMarks(0, f.writeWorks)), CancelRemoves(0, f.removal)) == CancelledUpload(s, f)
  {
    assert map[0 := WillCancel] - {0} == map[] && map[0 := WillErase] - {0} == map[];
  }

  function FirstRound(s: FileState, listed: bool, f: Faults): FileState {
    if s.status != Uploading || !listed then s
    else
      var erased := Erase(s, f.removal);
      if f.removal == Removed then Leave(erased, Cancelled, f.writeWorks) else erased
  }

  function SecondRound(s: FileState, listed: bool, f: Faults): FileState {
    if s.status !in {Cancelled, Failed} || !listed || !f.queryWorks || s.refs > 0 then s
    else
      var erased := Erase(s, f.removal);
      if f.removal == Removed && f.writeWorks then erased.(status := Absent) else erased
  }

  function ThirdRound(s: FileState, listed: bool, f: Faults): FileState {
    if s.status == Ready && s.refs == 0 && listed && f.writeWorks then s.(status := Cancelled) else s
  }

  function MaintenanceSteps(round: nat, f: Faults): seq<Event> {
    if round == 1 then [StaleLists, StaleRemoves(f.removal), StaleMarks(f.writeWorks)]
    else if round == 2 then [TerminalLists, TerminalChecks(f.queryWorks), TerminalRemoves(f.removal)]
                            + [TerminalRechecks(f.queryWorks), TerminalDeletes(f.writeWorks)]
    else [OrphanLists, OrphanCancels(f.writeWorks)]
  }

  /** Each round, undisturbed, is its steps of the interleaving model taken one after another. */
  lemma FirstRoundIsSteps(s: FileState, f: Faults)
    requires s.maintenance == Resting
    ensures FirstRound(s, true, f) == RunFrom(s, MaintenanceSteps(1, f))
  {
    hide RunFrom, Step, FirstRound;
    RunThree(s, StaleLists, StaleRemoves(f.removal), StaleMarks(f.writeWorks));
    StaleStatements(s, f);
  }

  lemma StaleStatements(s: FileState, f: Faults)
    requires s.maintenance == Resting
    ensures Step(Step(Step(s, StaleLists), StaleRemoves(f.removal)), StaleMarks(f.writeWorks)) == FirstRound(s, true, f)
  {
  }

  lemma SecondRoundIsSteps(s: FileState, f: Faults)
    requires s.maintenance == Resting
    ensures SecondRound(s, true, f) == RunFrom(s, MaintenanceSteps(2, f))
  {
    hide RunFrom, Step;
    RunThree(s, TerminalLists, TerminalChecks(f.queryWorks), TerminalRemoves(f.removal));
    RunFromSplits(s, [TerminalLists, TerminalChecks(f.queryWorks), TerminalRemoves(f.removal)],
                  [TerminalRechecks(f.queryWorks), TerminalDeletes(f.writeWorks)]);
    var t := Step(Step(Step(s, TerminalLists), TerminalChecks(f.queryWorks)), TerminalRemoves(f.removal));
    RunTwo(t, TerminalRechecks(f.queryWorks), TerminalDeletes(f.writeWorks));
    UpToRemoval(s, f);
    FromRecheck(s, t, f);
  }

  lemma UpToRemoval(s: FileState, f: Faults)
    requires s.maintenance == Resting
    ensures Step(Step(Step(s, TerminalLists), TerminalChecks(f.queryWorks)), TerminalRemoves(f.removal))
         == if s.status in {Cancelled, Failed} && f.queryWorks && s.refs == 0
            then Erase(s, f.removal).(maintenance := if f.removal == Removed then TerminalRemoved else Resting) else s
  {
  }

  lemma FromRecheck(s: FileState, t: FileState, f: Faults)
    requires s.maintenance == Resting
    requires t == if s.status in {Cancelled, Failed} && f.queryWorks && s.refs == 0
                  then Erase(s, f.removal).(maintenance := if f.removal == Removed then TerminalRemoved else Resting) else s
    ensures Step(Step(t, TerminalRechecks(f.queryWorks)), TerminalDeletes(f.writeWorks)) == SecondRound(s, true, f)
  {
  }

  lemma ThirdRoundIsSteps(s: FileState, f: Faults)
    requires s.maintenance == Resting
    ensures ThirdRound(s, true, f) == RunFrom(s, MaintenanceSteps(3, f))
  {
    hide RunFrom;
    RunTwo(s, OrphanLists, OrphanCancels(f.writeWorks));
  }

  lemma RunTwo(s: FileState, a: Event, b: Event)
    ensures RunFrom(s, [a, b]) == Step(Step(s, a), b)
  {
    hide Step;
    RunFromFirst(s, a, [b]);
    RunFromFirst(Step(s, a), b, []);
    assert [a, b] == [a] + [b] && [b] == [b] + [];
  }

  function OneRound(s: FileState, round: nat, listed: bool, f: Faults): FileState {
    if round == 1 then FirstRound(s, listed, f)
    else if round == 2 then SecondRound(s, listed, f)
    else ThirdRound(s, listed, f)
  }

  /** What the three rounds make of one file; `listed` tells which rounds' queries return it. */
  function Pruned(s: FileState, id: int, listed: (int, nat) -> bool, faults: (int, nat) -> Faults): FileState {
    var first := OneRound(s, 1, listed(id, 1), faults(id, 1));
    var second := OneRound(first, 2, listed(id, 2), faults(id, 2));
    OneRound(second, 3, listed(id, 3), faults(id, 3))
  }

  predicate NothingFails(f: Faults) {
    f.removal == Removed && f.writeWorks && f.queryWorks
  }

  /** Maintenance never touches a file in use; undisturbed it takes the others one step further. */
  lemma PruningSparesFilesInUse(s: FileState, id: int, listed: (int, nat) -> bool, faults: (int, nat) -> Faults)
    requires Attached(s)
    ensures s.refs > 0 ==> Pruned(s, id, listed, faults) == s
    ensures Sound(s) ==> Sound(Pruned(s, id, listed, faults))
    ensures (forall k :: listed(id, k) && NothingFails(faults(id, k))) && s.refs == 0 ==>
              Pruned(s, id, listed, faults) ==
              match s.status
              case Ready => s.(status := Cancelled)
              case Absent => s
              case _ => s.(status := Absent, blob := false)
  {
  }

  // ---- Every file can be reclaimed ----

  const HEALTHY := Faults(Ok, Removed, true, true)

  /** Lets the round under way come to nothing. */
  function Interrupted(maintenance: Maintenance): seq<Event> {
    match maintenance
    case Resting => []
    case StaleListed => [StaleRemoves(Partly(false))]
    case StaleRemoved => [StaleMarks(false)]
    case TerminalListed => [TerminalChecks(false)]
    case TerminalChecked => [TerminalRemoves(Partly(false))]
    case TerminalRemoved => [TerminalRechecks(false)]
    case TerminalRechecked => [TerminalDeletes(false)]
    case OrphanListed => [OrphanCancels(false)]
  }

  lemma RunOne(s: FileState, e: Event)
    ensures RunFrom(s, [e]) == Step(s, e)
  {
    hide Step;
    RunFromFirst(s, e, []);
    assert [e] + [] == [e];
  }

  lemma ComesToRest(s: FileState)
    ensures RunFrom(s, Interrupted(s.maintenance)) == s.(maintenance := Resting)
  {
    if s.maintenance == Resting {
      RunFromNothing(s);
    } else {
      var e := Interrupted(s.maintenance)[0];
      RunOne(s, e);
      assert Interrupted(s.maintenance) == [e];
      hide RunFrom;
      InterruptedRests(s, e);
    }
  }

  lemma InterruptedRests(s: FileState, e: Event)
    requires s.maintenance != Resting && Interrupted(s.maintenance) == [e]
    ensures Step(s, e) == s.(maintenance := Resting)
  {
    assert [e][0] == e;
  }

  /** All messages that refer to the file are deleted. */
  function Deletions(n: nat): seq<Event> {
    if n == 0 then [] else Deletions(n - 1) + [MessageDeleted]
  }

  lemma {:induction false} DeletionsDetach(s: FileState, n: nat)
    requires n <= s.refs
    ensures RunFrom(s, Deletions(n)) == s.(refs := s.refs - n)
  {
    hide RunFrom, Step;
    if n == 0 {
      RunFromNothing(s);
    } else {
      DeletionsDetach(s, n - 1);
      RunFromSplits(s, Deletions(n - 1), [MessageDeleted]);
      RunOne(s.(refs := s.refs - (n - 1)), MessageDeleted);
      OneDeletion(s.(refs := s.refs - (n - 1)));
    }
  }

  lemma OneDeletion(s: FileState)
    requires s.refs > 0
    ensures Step(s, MessageDeleted) == s.(refs := s.refs - 1)
  {
  }

  predicate Gone(s: FileState) {
    s.status == Absent && !s.blob && s.refs == 0
  }

  /** The rounds that take an unused file to its end. */
  function LastRounds(status: Status): seq<Event> {
    (if status == Uploading then MaintenanceSteps(1, HEALTHY) else if status == Ready then MaintenanceSteps(3, HEALTHY) else [])
    + MaintenanceSteps(2, HEALTHY)
  }

  lemma LastRoundsReclaim(s: FileState)
    requires s.maintenance == Resting && s.refs == 0 && s.status != Absent
    ensures Gone(RunFrom(s, LastRounds(s.status)))
  {
    hide RunFrom, Step, MaintenanceSteps;
    var first := LastRounds(s.status)[..|LastRounds(s.status)| - |MaintenanceSteps(2, HEALTHY)|];
    assert LastRounds(s.status) == first + MaintenanceSteps(2, HEALTHY);
    RunFromSplits(s, first, MaintenanceSteps(2, HEALTHY));
    FirstRoundIsSteps(s, HEALTHY);
    ThirdRoundIsSteps(s, HEALTHY);
    RunFromNothing(s);
    SecondRoundIsSteps(RunFrom(s, first), HEALTHY);
  }

  lemma RunFromNothing(s: FileState)
    ensures RunFrom(s, []) == s
  {
  }

  /**
   Whatever has happened to a file whose row is there, it can still be reclaimed: once its messages are
   deleted, undisturbed maintenance takes row and object away.
   */
  lemma FileCanBeReclaimed(es: seq<Event>)
    requires Run(es).status != Absent
    ensures exists more :: Gone(Run(es + more))
  {
    hide Step, Run, RunFrom, Deletions, LastRounds, Interrupted;
    var s := Run(es);
    var rest := Interrupted(s.maintenance);
    var still := s.(maintenance := Resting);
    ComesToRest(s);
    DeletionsDetach(still, s.refs);
    LastRoundsReclaim(still.(refs := 0));
    var more := rest + Deletions(s.refs) + LastRounds(s.status);
    RunFromSplits(s, rest + Deletions(s.refs), LastRounds(s.status));
    RunFromSplits(s, rest, Deletions(s.refs));
    RunIsRunFrom(es);
    RunIsRunFrom(es + more);
    RunFromSplits(Created(), es, more);
    assert Gone(Run(es + more));
  }

  class FileServer {
    var files: map<int, FileState>

    ghost predicate Valid()
      reads this
    {
      forall id <- files :: AtRest(files[id]) && Attached(files[id])
    }

    /** A completion request served without interruption. */
    method CompleteUpload(id: int, f: Faults) returns (outcome: Outcome)
      requires Valid() && id in files
      modifies this
      ensures Valid() && id in files && files == old(files)[id := files[id]]
      // the file is what the handler's statements make of it, one after another
      ensures files[id] == RunFrom(old(files[id]), CompletionSteps(f))
      // and the answer says which of them were taken
      ensures outcome == AlreadyComplete <==> old(files[id]).status == Ready
      ensures outcome == NotInProgress <==> old(files[id]).status !in {Ready, Uploading}
      ensures var assembled := old(files[id]).status == Uploading && (old(files[id]).blob || f.finalize == Ok);
              (outcome == Complete <==> assembled && f.writeWorks) && (outcome == NotRecorded <==> assembled && !f.writeWorks)
      ensures var refused := old(files[id]).status == Uploading && !old(files[id]).blob;
              && (outcome == MissingChunks <==> refused && f.finalize == Incomplete)
              && (outcome == StorageFailed <==> refused && f.finalize == StorageError)
              && (outcome == Faulty <==> refused && DataFault(f.finalize))
      ensures outcome == Complete ==> files[id] == old(files[id]).(status := Ready, blob := true)
      ensures outcome == NotRecorded ==> files[id] == old(files[id]).(blob := true)
      ensures outcome == Faulty ==> files[id] == Erase(old(files[id]).(status := if f.writeWorks then Failed else Uploading), f.removal)
      ensures outcome in {AlreadyComplete, NotInProgress, MissingChunks, StorageFailed} ==> files[id] == old(files[id])
    {
      var s := files[id];
      CompletionIsSteps(s, f);
      hide RunFrom, CompletionSteps, Step;
      if s.status == Ready {
        return AlreadyComplete;
      }
      if s.status != Uploading {
        return NotInProgress;
      }
      if s.blob || f.finalize == Ok {
        files := files[id := s.(blob := true)];
        if !f.writeWorks {
          return NotRecorded;
        }
        files := files[id := Leave(files[id], Ready, true)];
        return Complete;
      }
      if f.finalize == Incomplete {
        return MissingChunks;
      }
      if !DataFault(f.finalize) {
        return StorageFailed;
      }
      files := files[id := Leave(s, Failed, f.writeWorks)];
      files := files[id := Erase(files[id], f.removal)];
      return Faulty;
    }

    method CancelUpload(id: int, f: Faults) returns (outcome: Outcome)
      requires Valid() && id in files
      modifies this
      ensures Valid() && id in files && files == old(files)[id := files[id]]
      ensures files[id] == RunFrom(old(files[id]), CancellationSteps(f))
      ensures outcome == CancelledNow <==> old(files[id]).status == Uploading && f.writeWorks
      ensures outcome == CancelledNow ==> files[id] == Erase(old(files[id]).(status := Cancelled), f.removal)
      ensures outcome == AlreadyCancelled <==> old(files[id]).status == Cancelled
      ensures outcome != CancelledNow ==> files[id] == old(files[id])
    {
      var s := files[id];
      CancellationIsSteps(s, f);
      hide RunFrom, CancellationSteps, Step;
      if s.status == Cancelled {
        return AlreadyCancelled;
      }
      if s.status != Uploading || !f.writeWorks {
        return NotInProgress;
      }
      files := files[id := Leave(s, Cancelled, true)];
      files := files[id := Erase(files[id], f.removal)];
      return CancelledNow;
    }

    /** The check of a message's file, then the guarded insert. */
    method SendFileMessage(id: int) returns (sent: bool)
      requires Valid()
      modifies this
      ensures Valid()
      ensures sent <==> id in old(files) && old(files)[id].status == Ready
      ensures files == if sent then old(files)[id := old(files)[id].(refs := old(files)[id].refs + 1)] else old(files)
    {
      if id !in files || files[id].status != Ready {
        return false;
      }
      files := files[id := Step(files[id], MessageInserted)];
      return true;
    }

    /** The three rounds of the maintenance task. */
    method PruneFileUploads(listed: (int, nat) -> bool, faults: (int, nat) -> Faults)
      requires Valid()
      modifies this
      ensures Valid() && files.Keys == old(files).Keys
      ensures forall id <- files :: files[id] == Pruned(old(files)[id], id, listed, faults)
    {
      PruneRound(1, listed, faults);
      PruneRound(2, listed, faults);
      PruneRound(3, listed, faults);
    }

    method PruneRound(round: nat, listed: (int, nat) -> bool, faults: (int, nat) -> Faults)
      requires Valid() && 1 <= round <= 3
      modifies this
      ensures Valid() && files.Keys == old(files).Keys
      ensures forall id <- files :: files[id] == OneRound(old(files)[id], round, listed(id, round), faults(id, round))
    {
      var todo := files.Keys;
      while todo != {}
        invariant todo <= files.Keys == old(files).Keys && Valid()
        invariant forall id <- files ::
                    files[id] == if id in todo then old(files)[id] else OneRound(old(files)[id], round, listed(id, round), faults(id, round))
      {
        ghost var some := Member(todo);
        var id :| id in todo;
        PruneFile(id, round, listed(id, round), faults(id, round));
        todo := todo - {id};
      }
    }

    method PruneFile(id: int, round: nat, listed: bool, f: Faults)
      requires Valid() && id in files && 1 <= round <= 3
      modifies this
      ensures Valid() && files == old(files)[id := OneRound(old(files)[id], round, listed, f)]
    {
      if !listed {
        assert files[id := files[id]] == files;
        return;
      }
      var s := files[id];
      if round == 1 {
        if s.status == Uploading {
          s := Erase(s, f.removal);
          if f.removal == Removed {
            s := Leave(s, Cancelled, f.writeWorks);
          }
        }
      } else if round == 2 {
        if s.status in {Cancelled, Failed} && f.queryWorks && s.refs == 0 {
          s := Erase(s, f.removal);
          if f.removal == Removed && f.writeWorks {
            s := s.(status := Absent);
          }
        }
      } else if s.status == Ready && s.refs == 0 && f.writeWorks {
        s := s.(status := Cancelled);
      }
      files := files[id := s];
    }
  }
}
