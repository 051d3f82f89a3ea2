/**
  * Journalling under the invariant, and what other processes do to a run while an executor is busy:
  * `cancel` and `recordApproval` of packages/agent-runtime/src/engine/orchestrator.ts. Each of them loads
  * the manifest, acts, and journals its copy of it in three store calls, and anything may happen in between.
  */
module Operators {
  import opened Basics
  import opened PlanTypes
  import opened RunTypes
  import opened Journal
  import opened RunProtocol

  /** One completed recovery would leave a settled journal. */
  ghost predicate Recoverable(runId: string, d: Disk) {
    Recover(runId, d).Done? && Settled(runId, Recover(runId, d).value)
  }

  ghost predicate JournalOk(store: RunStateStore)
    reads store
  {
    Recoverable(store.runId, store.Snapshot())
  }

  /** The manifest the next process to load the run will see. */
  ghost function View(store: RunStateStore): Manifest
    requires JournalOk(store)
    reads store
  {
    Recover(store.runId, store.Snapshot()).value.manifest.value
  }

  /** The log the next process to load the run will see. */
  ghost function Log(store: RunStateStore): seq<RunEvent>
    requires JournalOk(store)
    reads store
  {
    Recover(store.runId, store.Snapshot()).value.events
  }

  /** The holder's copy is the persisted one as far as numbering goes, and nothing is pending. */
  ghost predicate Current(store: RunStateStore, manifest: RunManifest)
    reads store, manifest
  {
    && Settled(store.runId, store.Snapshot())
    && manifest.runId == store.runId
    && manifest.nextSequence == store.manifestFile.value.nextSequence
  }

  lemma OnRecoveryTrail(runId: string, before: Disk, after: Disk)
    requires Recover(runId, before).Done?
    requires after in RecoveryTrail(runId, before)
    ensures Recover(runId, after) == Recover(runId, before)
  {
    var k :| 0 <= k < |RecoveryTrail(runId, before)| && RecoveryTrail(runId, before)[k] == after;
    RecoverySurvivesCrash(runId, before, k);
  }

  lemma OnAppendTrail(runId: string, settled: Disk, holder: Manifest, draft: EventDraft, after: Disk)
    requires Settled(runId, settled) && holder.runId == runId
    requires after in Appending(settled, holder, draft)
    ensures var next := holder.(nextSequence := settled.manifest.value.nextSequence + 1);
            var event := draft.Numbered(runId, settled.manifest.value.nextSequence);
            var finished := Disk(Some(next), settled.events + [event], None);
            && Recover(runId, after).Done?
            && Settled(runId, finished)
            && Recover(runId, after).value in {settled, finished}
  {
    var trail := Appending(settled, holder, draft);
    var k :| 0 <= k < |trail| && trail[k] == after;
    var sequence := settled.manifest.value.nextSequence;
    AppendCrashPoint(runId, settled, holder.(nextSequence := sequence + 1), draft.Numbered(runId, sequence), k);
  }

  /** The store takes an append: the holder's number is the persisted one, or a cancellation is on record. */
  predicate Admits(view: Manifest, cancelled: bool, holder: Manifest) {
    holder.nextSequence == view.nextSequence || cancelled
  }

  /** What an admitted append persists: the holder's copy, under the number after the persisted one. */
  function Succeeding(view: Manifest, holder: Manifest): Manifest {
    holder.(nextSequence := view.nextSequence + 1)
  }

  /**
    * `appendEvent` on a recoverable journal: if the store takes it, it returns with the holder's whole manifest
    * persisted; if not, it throws with nothing persisted; and it may break off with one or the other, also when
    * the process goes on.
    */
  method Append(store: RunStateStore, manifest: RunManifest, draft: EventDraft) returns (r: Exit<()>)
    requires JournalOk(store) && manifest.runId == store.runId
    modifies store`manifestFile, store`eventsFile, store`transactionFile, manifest`nextSequence
    ensures JournalOk(store)
    ensures old(Log(store)) <= Log(store)
    ensures !r.BrokeOff() ==> (r.Done? <==> Admits(old(View(store)), store.cancellationFile, old(manifest.Snapshot())))
    ensures r.Done? || r == Thrown(StaleManifest) || r.BrokeOff()
    ensures r.Done? ==> View(store) == Succeeding(old(View(store)), old(manifest.Snapshot()))
    ensures r.Done? ==> View(store) == manifest.Snapshot() && Current(store, manifest)
    ensures r == Thrown(StaleManifest) ==>
              View(store) == old(View(store)) && manifest.nextSequence == old(manifest.nextSequence)
    ensures r.BrokeOff() ==>
              || View(store) == old(View(store))
              || (&& View(store) == Succeeding(old(View(store)), old(manifest.Snapshot()))
                  && Admits(old(View(store)), store.cancellationFile, old(manifest.Snapshot())))
    ensures r.Done? ==>
              Log(store) == old(Log(store)) +
              [RunEvent(|old(Log(store))| + 1, store.runId, draft.kind, draft.taskId, draft.workerId)]
    ensures r == Thrown(StaleManifest) ==> Log(store) == old(Log(store))
  {
    ghost var before, holder := store.Snapshot(), manifest.Snapshot();
    ghost var settled := Recover(store.runId, before).value;
    r := store.AppendEvent(manifest, draft);
    if r.BrokeOff() {
      if store.Snapshot() in RecoveryTrail(store.runId, before) {
        OnRecoveryTrail(store.runId, before, store.Snapshot());
      } else {
        OnAppendTrail(store.runId, settled, holder, draft, store.Snapshot());
      }
    } else if r.Thrown? {
      assert Recover(store.runId, store.Snapshot()) == Recover(store.runId, before);
    } else {
      assert store.Snapshot() == Appending(settled, holder, draft)[4];
      OnAppendTrail(store.runId, settled, holder, draft, store.Snapshot());
    }
  }

  method Load(store: RunStateStore) returns (r: Exit<RunManifest>)
    requires JournalOk(store)
    modifies store`manifestFile, store`eventsFile, store`transactionFile
    ensures JournalOk(store) && View(store) == old(View(store)) && Log(store) == old(Log(store))
    ensures r.Done? ==> fresh(r.value) && r.value.Snapshot() == View(store) && Current(store, r.value)
    ensures r.Thrown? ==> !r.fault.LeaseHeld?
  {
    ghost var before := store.Snapshot();
    r := store.LoadManifest();
    OnRecoveryTrail(store.runId, before, store.Snapshot());
  }

  // ---- the steps of an operator's call ----

  /** What the operators and the executor share. */
  datatype Shared = Shared(
    view: Manifest, approvals: seq<ApprovalRecord>, cancelled: bool, calls: seq<OperatorCall>, lost: Lost)

  ghost function SharedBy(store: RunStateStore): Shared
    requires JournalOk(store)
    reads store
  {
    Shared(View(store), store.approvalsFile, store.cancellationFile, store.calls, store.lost)
  }

  function WithoutCall(calls: seq<OperatorCall>, i: nat): seq<OperatorCall>
    requires i < |calls|
  {
    calls[..i] + calls[i + 1..]
  }

  /**
    * Whether the call goes on after its load: a cancellation of a run that is over does nothing, an unknown task
    * throws.
    */
  predicate GoesOn(action: OperatorAction, loaded: Manifest) {
    match action
    case Cancelling => !loaded.status.Terminal()
    case Deciding(record) => record.taskId in loaded.taskStates
  }

  /** The call after it has written the request or the record, and put it into its copy. */
  function Acted(call: OperatorCall): OperatorCall {
    match call.action
    case Cancelling => call.(manifest := CancelledCopy(call.manifest), acted := true)
    case Deciding(record) =>
      call.(manifest := call.manifest.(approvals := call.manifest.approvals + [record]), acted := true)
  }

  ghost predicate Starts(a: Shared, b: Shared, action: OperatorAction) {
    GoesOn(action, a.view) && b == a.(calls := a.calls + [OperatorCall(action, a.view, false)])
  }

  /** The request or the record is written, and the call knows it. */
  ghost function Acting(a: Shared, i: nat): Shared
    requires i < |a.calls|
  {
    var call := a.calls[i];
    a.(calls := a.calls[i := Acted(call)],
       approvals := if call.action.Deciding? then a.approvals + [call.action.record] else a.approvals,
       cancelled := a.cancelled || call.action.Cancelling?)
  }

  ghost predicate Acts(a: Shared, b: Shared, i: nat)
    requires i < |a.calls|
  {
    !a.calls[i].acted && b == Acting(a, i)
  }

  /** A copy that counts other attempts or checkpoints than the persisted manifest makes it forget. */
  function Losing(lost: Lost, copy: Manifest, view: Manifest): Lost {
    Lost(lost.attempts || copy.metrics.attemptCount != view.metrics.attemptCount,
         lost.checkpoints || |copy.checkpoints| != |view.checkpoints|)
  }

  /** The call was refused as stale, or its process died. */
  ghost predicate Leaves(a: Shared, b: Shared, i: nat)
    requires i < |a.calls|
  {
    b == a.(calls := WithoutCall(a.calls, i))
  }

  /** The call broke off while it acted: what it wrote may be there, and it is gone. */
  ghost predicate Breaks(a: Shared, b: Shared, i: nat)
    requires i < |a.calls|
  {
    !a.calls[i].acted && Leaves(Acting(a, i), b, i)
  }

  ghost predicate Journals(a: Shared, b: Shared, i: nat)
    requires i < |a.calls|
  {
    var copy := a.calls[i].manifest;
    && a.calls[i].acted && Admits(a.view, a.cancelled, copy)
    && b == a.(view := Succeeding(a.view, copy), calls := WithoutCall(a.calls, i),
               lost := Losing(a.lost, copy, a.view))
  }

  ghost predicate CallStep(a: Shared, b: Shared, i: nat)
    requires i < |a.calls|
  {
    Acts(a, b, i) || Leaves(a, b, i) || Breaks(a, b, i) || Journals(a, b, i)
  }

  /** One store call of one operator, or none. */
  ghost predicate OperatorStep(a: Shared, b: Shared) {
    || a == b
    || (exists action :: Starts(a, b, action))
    || (exists i :: 0 <= i < |a.calls| && CallStep(a, b, i))
  }

  /** The calls under way are about this run. */
  ghost predicate CallsBelong(store: RunStateStore)
    reads store
  {
    forall call :: call in store.calls ==> call.manifest.runId == store.runId
  }

  lemma ViewIsOurs(store: RunStateStore)
    requires JournalOk(store)
    ensures View(store).runId == store.runId
  {
  }

  /** What no operator touches. */
  twostate predicate OnlyShared(store: RunStateStore)
    requires old(JournalOk(store)) && JournalOk(store)
    reads store
  {
    && old(Log(store)) <= Log(store)
    && store.planFile == old(store.planFile) && store.directoryExists == old(store.directoryExists)
  }

  /** `loadManifest` and the test that follows it: the call is under way, or it is over. */
  method StartCall(store: RunStateStore, action: OperatorAction) returns (r: Exit<bool>)
    requires JournalOk(store) && CallsBelong(store)
    modifies store
    ensures JournalOk(store) && CallsBelong(store) && OnlyShared(store) && Log(store) == old(Log(store))
    ensures r == Done(true) ==> Starts(old(SharedBy(store)), SharedBy(store), action)
    ensures r != Done(true) ==> SharedBy(store) == old(SharedBy(store))
    ensures r.Done? ==> (r.value <==> GoesOn(action, View(store))) && (r.value || action.Cancelling?)
  {
    hide Recoverable;
    var manifest :- Load(store);
    if !GoesOn(action, manifest.Snapshot()) {
      return if action.Cancelling? then Done(false) else Thrown(UnknownTask);
    }
    store.calls := store.calls + [OperatorCall(action, manifest.Snapshot(), false)];
    r := Done(true);
  }

  /** `requestCancellation` or `recordApproval` of the store, and the same in the copy. */
  method Act(store: RunStateStore, i: nat) returns (r: Exit<()>)
    requires JournalOk(store) && CallsBelong(store) && i < |store.calls| && !store.calls[i].acted
    modifies store
    ensures JournalOk(store) && CallsBelong(store) && OnlyShared(store) && Log(store) == old(Log(store))
    ensures r.Done? ==> Acts(old(SharedBy(store)), SharedBy(store), i)
    ensures !r.Done? ==>
              Leaves(old(SharedBy(store)), SharedBy(store), i) || Breaks(old(SharedBy(store)), SharedBy(store), i)
    ensures r.Done? && old(store.calls[i].action.Deciding?) ==>
              var record := old(store.calls[i].action.record);
              LatestApproval(store.approvalsFile, record.taskId, record.phase) == Some(record)
  {
    hide Recoverable;
    var call := store.calls[i];
    match call.action {
      case Cancelling => r := store.RequestCancellation();
      case Deciding(record) => r := store.RecordApproval(record);
    }
    store.calls := if r.Done? then store.calls[i := Acted(call)] else WithoutCall(store.calls, i);
  }

  /** What `appendEvent` is given. */
  function DraftOf(call: OperatorCall): EventDraft {
    match call.action
    case Cancelling => EventDraft(CancellationRequestedEvent, call.manifest.currentTaskId, None)
    case Deciding(record) => EventDraft(ApprovalDecidedEvent(record.approved), Some(record.taskId), None)
  }

  /** `appendEvent` with the call's copy, whatever has been journalled since it was loaded. */
  method JournalCall(store: RunStateStore, i: nat) returns (r: Exit<()>)
    requires JournalOk(store) && CallsBelong(store) && i < |store.calls| && store.calls[i].acted
    modifies store
    ensures JournalOk(store) && CallsBelong(store) && OnlyShared(store)
    ensures r.Done? ==> Journals(old(SharedBy(store)), SharedBy(store), i)
    ensures r.Done? ==>
              var call, next := old(store.calls[i]), |old(Log(store))| + 1;
              Log(store) == old(Log(store)) +
              [match call.action
               case Cancelling =>
                 RunEvent(next, store.runId, CancellationRequestedEvent, call.manifest.currentTaskId, None)
               case Deciding(record) =>
                 RunEvent(next, store.runId, ApprovalDecidedEvent(record.approved), Some(record.taskId), None)]
    ensures r == Thrown(StaleManifest) ==>
              && Leaves(old(SharedBy(store)), SharedBy(store), i) && Log(store) == old(Log(store))
              && !Admits(old(View(store)), store.cancellationFile, old(store.calls[i]).manifest)
    ensures r.Done? || r == Thrown(StaleManifest) || r.BrokeOff()
    ensures r.BrokeOff() ==>
              Leaves(old(SharedBy(store)), SharedBy(store), i) || Journals(old(SharedBy(store)), SharedBy(store), i)
  {
    hide Recoverable;
    ghost var before := SharedBy(store);
    var call := store.calls[i];
    var manifest := new RunManifest(call.manifest);
    r := Append(store, manifest, DraftOf(call));
    store.calls := WithoutCall(store.calls, i);
    if View(store) != before.view {
      store.lost := Losing(store.lost, call.manifest, before.view);
    }
  }

  lemma StartIsStep(a: Shared, b: Shared, action: OperatorAction)
    requires Starts(a, b, action)
    ensures OperatorStep(a, b)
  {
  }

  /** One store call by some operator, or the end of an operator's process. */
  method OperatorMove(store: RunStateStore)
    requires JournalOk(store) && CallsBelong(store)
    modifies store
    ensures JournalOk(store) && CallsBelong(store) && OnlyShared(store)
    ensures OperatorStep(old(SharedBy(store)), SharedBy(store))
  {
    hide Recoverable, View, Log, Starts, Acts, Breaks, Journals, Leaves;
    ghost var before := SharedBy(store);
    var starts: bool := *;
    if starts {
      var action: OperatorAction := *;
      var begun := StartCall(store, action);
      if begun == Done(true) {
        StartIsStep(before, SharedBy(store), action);
      }
    } else if store.calls != [] {
      var i :| 0 <= i < |store.calls|;
      var dies: bool := *;
      if dies {
        Withdraw(store, i);
      } else if store.calls[i].acted {
        var _ := JournalCall(store, i);
      } else {
        var _ := Act(store, i);
      }
      assert CallStep(before, SharedBy(store), i);
    }
  }

  method Withdraw(store: RunStateStore, i: nat)
    requires JournalOk(store) && CallsBelong(store) && i < |store.calls|
    modifies store`calls
    ensures JournalOk(store) && CallsBelong(store) && OnlyShared(store)
    ensures Leaves(old(SharedBy(store)), SharedBy(store), i)
  {
    store.calls := WithoutCall(store.calls, i);
  }

  // ---- a call that nothing interrupts ----

  /** What a call that nothing interrupts may change. */
  twostate predicate OthersOnly(store: RunStateStore)
    requires old(JournalOk(store)) && JournalOk(store)
    reads store
  {
    && Body(View(store)) == old(Body(View(store)))
    && OnlyShared(store)
    && old(store.approvalsFile) <= store.approvalsFile
    && (old(store.cancellationFile) ==> store.cancellationFile)
    && (View(store).cancellationRequested ==> store.cancellationFile || old(View(store).cancellationRequested))
    && store.calls == old(store.calls) && store.lost == old(store.lost)
  }

  method Cancel(store: RunStateStore) returns (r: Exit<()>)
    requires JournalOk(store) && CallsBelong(store)
    modifies store
    ensures JournalOk(store) && CallsBelong(store) && OthersOnly(store)
    ensures store.approvalsFile == old(store.approvalsFile)
    ensures r.Done? && !View(store).status.Terminal() ==> store.cancellationFile && View(store).cancellationRequested
    ensures View(store).status.Terminal() ==> store.cancellationFile == old(store.cancellationFile)
  {
    hide Recoverable, View, Log;
    ghost var before := SharedBy(store);
    var i := |store.calls|;
    var begun :- StartCall(store, Cancelling);
    if !begun {
      return Done(());
    }
    WithoutLast(before.calls, OperatorCall(Cancelling, before.view, false));
    var _ :- Act(store, i);
    WithoutLast(before.calls, Acted(OperatorCall(Cancelling, before.view, false)));
    r := JournalCall(store, i);
  }

  lemma WithoutLast(calls: seq<OperatorCall>, call: OperatorCall)
    ensures WithoutCall(calls + [call], |calls|) == calls
    ensures forall last :: (calls + [call])[|calls| := last] == calls + [last]
  {
  }

  method RecordApproval(store: RunStateStore, taskId: string, phase: ApprovalPhase, approved: bool)
    returns (r: Exit<()>)
    requires JournalOk(store) && CallsBelong(store)
    modifies store
    ensures JournalOk(store) && CallsBelong(store) && OthersOnly(store)
    ensures store.cancellationFile == old(store.cancellationFile)
    ensures store.approvalsFile in
              {old(store.approvalsFile), old(store.approvalsFile) + [ApprovalRecord(taskId, phase, approved)]}
    ensures taskId !in View(store).taskStates ==> !r.Done? && store.approvalsFile == old(store.approvalsFile)
    ensures r.Done? ==>
              && LatestApproval(store.approvalsFile, taskId, phase) == Some(ApprovalRecord(taskId, phase, approved))
              && ApprovalRecord(taskId, phase, approved) in View(store).approvals
  {
    hide Recoverable, View, Log;
    var record := ApprovalRecord(taskId, phase, approved);
    ghost var before := SharedBy(store);
    var i := |store.calls|;
    var begun :- StartCall(store, Deciding(record));
    if !begun {
      return Done(());
    }
    WithoutLast(before.calls, OperatorCall(Deciding(record), before.view, false));
    var _ :- Act(store, i);
    WithoutLast(before.calls, Acted(OperatorCall(Deciding(record), before.view, false)));
    r := JournalCall(store, i);
  }

  // ---- what survives the operators ----

  ghost predicate Shares(a: Shared, w: World) {
    a.approvals == w.approvals && a.cancelled == w.cancelled && a.calls == w.calls && a.lost == w.lost
  }

  ghost function With(w: World, b: Shared): World {
    w.(approvals := b.approvals, cancelled := b.cancelled, calls := b.calls, lost := b.lost)
  }

  /** As far as nothing was lost, two manifests have the same attempts, checkpoints and completed tasks. */
  ghost predicate Even(lost: Lost, a: Manifest, b: Manifest) {
    Follows(lost, a, b) && Follows(lost, b, a) && Level(lost, a, b) && b.runId == a.runId
  }

  lemma EvenWithItself(lost: Lost, m: Manifest)
    ensures Even(lost, m, m)
  {
    SameBody(m, m);
  }

  lemma StartsKeepsKept(c: CompiledPlan, a: Shared, b: Shared, w: World, action: OperatorAction)
    requires Shares(a, w) && Kept(c, a.view, w) && Starts(a, b, action)
    ensures Kept(c, b.view, With(w, b)) && Grows(w, With(w, b)) && Even(b.lost, a.view, b.view)
  {
    hide RunOk, StartsCounted, KeepsAttempts, KeepsCompleted;
    EvenWithItself(b.lost, a.view);
    CallsChange(c, a, b, w);
    forall call | call in b.calls ensures CopyOk(c, b.view, With(w, b), call.manifest) {
      if call in a.calls {
        assert CopyOk(c, a.view, w, call.manifest);
        RunOkGrows(c, call.manifest, w, With(w, b));
      }
    }
  }

  /** The world and the persisted manifest while only calls, approvals and the flag move. */
  lemma CallsChange(c: CompiledPlan, a: Shared, b: Shared, w: World)
    requires Shares(a, w) && WorldOk(c, w) && RunOk(c, a.view, w)
    requires a.approvals <= b.approvals && (a.cancelled ==> b.cancelled) && a.lost.Within(b.lost)
    ensures Grows(w, With(w, b)) && WorldOk(c, With(w, b)) && RunOk(c, a.view, With(w, b))
  {
    hide WorldOk, RunOk;
    WorldOkWithApprovals(c, w, b.approvals, b.cancelled, b.calls, b.lost);
    RunOkGrows(c, a.view, w, With(w, b));
  }

  lemma LeavesKeepsKept(c: CompiledPlan, a: Shared, b: Shared, w: World, i: nat)
    requires i < |a.calls|
    requires Shares(a, w) && Kept(c, a.view, w) && Leaves(a, b, i)
    ensures Kept(c, b.view, With(w, b)) && Grows(w, With(w, b)) && Even(b.lost, a.view, b.view)
  {
    hide RunOk, StartsCounted, KeepsAttempts, KeepsCompleted;
    EvenWithItself(b.lost, a.view);
    CallsChange(c, a, b, w);
    forall call | call in b.calls ensures CopyOk(c, b.view, With(w, b), call.manifest) {
      assert CopyOk(c, a.view, w, call.manifest);
      RunOkGrows(c, call.manifest, w, With(w, b));
    }
  }

  lemma ActsKeepsKept(c: CompiledPlan, a: Shared, b: Shared, w: World, i: nat)
    requires i < |a.calls|
    requires Shares(a, w) && Kept(c, a.view, w) && Acts(a, b, i)
    ensures Kept(c, b.view, With(w, b)) && Grows(w, With(w, b)) && Even(b.lost, a.view, b.view)
  {
    hide RunOk, StartsCounted, KeepsAttempts, KeepsCompleted;
    EvenWithItself(b.lost, a.view);
    CallsChange(c, a, b, w);
    forall call | call in b.calls ensures CopyOk(c, b.view, With(w, b), call.manifest) {
      if call in a.calls {
        assert CopyOk(c, a.view, w, call.manifest);
        RunOkGrows(c, call.manifest, w, With(w, b));
      } else {
        assert call == Acted(a.calls[i]);
        ActedCopyIsOk(c, a, b, w, a.calls[i]);
      }
    }
  }

  lemma BreaksKeepsKept(c: CompiledPlan, a: Shared, b: Shared, w: World, i: nat)
    requires i < |a.calls|
    requires Shares(a, w) && Kept(c, a.view, w) && Breaks(a, b, i)
    ensures Kept(c, b.view, With(w, b)) && Grows(w, With(w, b)) && Even(b.lost, a.view, b.view)
  {
    hide Kept;
    var middle := Acting(a, i);
    ActsKeepsKept(c, a, middle, w, i);
    LeavesKeepsKept(c, middle, b, With(w, middle), i);
  }

  lemma ActedCopyIsOk(c: CompiledPlan, a: Shared, b: Shared, w: World, call: OperatorCall)
    requires Shares(a, w) && CopyOk(c, a.view, w, call.manifest) && Grows(w, With(w, b)) && b.view == a.view
    requires call.action.Cancelling? ==> b.cancelled
    requires b.lost == a.lost
    ensures CopyOk(c, b.view, With(w, b), Acted(call).manifest)
  {
    hide RunOk, KeepsAttempts, KeepsCompleted;
    RunOkGrows(c, call.manifest, w, With(w, b));
    FlagIsRequested(c, call.manifest, With(w, b));
    BodyDecidesRunOk(c, call.manifest, Acted(call).manifest, With(w, b));
    SameBody(call.manifest, Acted(call).manifest);
    FollowsTransitive(w.lost, Acted(call).manifest, call.manifest, a.view);
  }

  /**
    * An append by an operator makes the manifest forget more only as a stale holder's, under a recorded
    * cancellation.
    */
  lemma ForgetsOnlyWhenLate(c: CompiledPlan, a: Shared, w: World, copy: Manifest)
    requires Shares(a, w) && CopyOk(c, a.view, w, copy) && Admits(a.view, a.cancelled, copy)
    ensures Losing(a.lost, copy, a.view) != a.lost ==> a.cancelled && copy.nextSequence < a.view.nextSequence
  {
    hide RunOk, KeepsAttempts, KeepsCompleted;
  }

  /**
    * Exactly when the persisted manifest forgets attempts, and exactly when it forgets checkpoints: an operator
    * journals a copy that counts fewer of them. The store takes such a copy only because a cancellation is on
    * record, for its number is behind.
    */
  lemma ForgettingIff(c: CompiledPlan, a: Shared, b: Shared, w: World, i: nat)
    requires i < |a.calls|
    requires Shares(a, w) && Kept(c, a.view, w) && Journals(a, b, i)
    ensures var copy := a.calls[i].manifest;
            && (!a.lost.attempts ==>
                  && (b.lost.attempts <==> !KeepsAttempts(a.view, b.view))
                  && (b.lost.attempts <==> copy.metrics.attemptCount < a.view.metrics.attemptCount))
            && (!a.lost.checkpoints ==>
                  && (b.lost.checkpoints <==> !KeepsCompleted(a.view, b.view))
                  && (b.lost.checkpoints <==> |copy.checkpoints| < |a.view.checkpoints|))
            && (b.lost != a.lost ==> a.cancelled && copy.nextSequence < a.view.nextSequence)
  {
    hide RunOk, StartsCounted, WorldOk;
    var copy := a.calls[i].manifest;
    assert CopyOk(c, a.view, w, copy) by { assert a.calls[i] in w.calls; }
    ForgetsOnlyWhenLate(c, a, w, copy);
    SuccessorIsCopy(a.view, copy);
    if !a.lost.attempts {
      AttemptsBackIff(c, copy, a.view, w);
    }
    if !a.lost.checkpoints {
      CompletedBackIff(c, copy, a.view, w);
    }
  }

  lemma SuccessorIsCopy(view: Manifest, copy: Manifest)
    ensures KeepsAttempts(view, Succeeding(view, copy)) <==> KeepsAttempts(view, copy)
    ensures KeepsCompleted(view, Succeeding(view, copy)) <==> KeepsCompleted(view, copy)
  {
  }

  lemma JournalsKeepsKept(c: CompiledPlan, a: Shared, b: Shared, w: World, i: nat)
    requires i < |a.calls|
    requires Shares(a, w) && Kept(c, a.view, w) && Journals(a, b, i)
    ensures Kept(c, b.view, With(w, b)) && Grows(w, With(w, b)) && Even(b.lost, a.view, b.view)
  {
    hide RunOk, StartsCounted, KeepsAttempts, KeepsCompleted, WorldOk;
    var call := a.calls[i];
    var v := With(w, b);
    CallsChange(c, a, b, w);
    ForgetsOnlyWhenLate(c, a, w, call.manifest);
    RunOkGrows(c, call.manifest, w, v);
    FlagIsRequested(c, call.manifest, v);
    BodyDecidesRunOk(c, call.manifest, b.view, v);
    LevelCopyIsEven(c, b.lost, a.view, b.view, call.manifest, w);
    if !b.lost.attempts {
      StartsStayCounted(a.view, b.view, w.starts);
    }
    HeldShrinks(c, a, b, w);
    HeldFallsBehind(c, a.view, b.view, v);
  }

  lemma LevelCopyIsEven(c: CompiledPlan, lost: Lost, view: Manifest, view': Manifest, copy: Manifest, w: World)
    requires RunOk(c, view, w) && RunOk(c, copy, w) && Follows(lost, copy, view) && Level(lost, copy, view)
    requires copy.runId == view.runId && view' == copy.(nextSequence := view'.nextSequence)
    ensures Even(lost, view, view')
  {
    hide RunOk, Follows;
    LevelFollowsBack(c, lost, copy, view, w);
    SameBody(copy, view');
    AdvancedFollows(lost, copy, view');
    AdvancedFollows(lost, view', copy);
    FollowsTransitive(lost, view, copy, view');
    FollowsTransitive(lost, view', copy, view);
  }

  /** The calls that remain still hold sound copies. */
  lemma HeldShrinks(c: CompiledPlan, a: Shared, b: Shared, w: World)
    requires Shares(a, w) && HeldOk(c, a.view, w) && Grows(w, With(w, b))
    requires forall call :: call in b.calls ==> call in a.calls
    requires b.lost.Any() ==> b.cancelled
    ensures HeldOk(c, a.view, With(w, b))
  {
    hide RunOk, KeepsAttempts, KeepsCompleted;
    forall call | call in b.calls ensures CopyOk(c, a.view, With(w, b), call.manifest) {
      assert CopyOk(c, a.view, w, call.manifest);
      RunOkGrows(c, call.manifest, w, With(w, b));
    }
  }

  /**
    * Whatever operators do between the executor's store calls, however late, the world and the persisted
    * manifest stay sound, and as far as late copies forget none, attempts, checkpoints and completed tasks stay.
    */
  lemma OperatorStepKeepsKept(c: CompiledPlan, a: Shared, b: Shared, w: World)
    requires Shares(a, w) && Kept(c, a.view, w) && OperatorStep(a, b)
    ensures Kept(c, b.view, With(w, b)) && Grows(w, With(w, b))
    ensures Even(b.lost, a.view, b.view)
  {
    hide Kept, Acts, Leaves, Breaks, Journals, Starts, Grows, Even;
    if a == b {
      Unmoved(c, a, w);
    } else if exists action :: Starts(a, b, action) {
      var action :| Starts(a, b, action);
      StartsKeepsKept(c, a, b, w, action);
    } else {
      var i :| 0 <= i < |a.calls| && CallStep(a, b, i);
      if Acts(a, b, i) {
        ActsKeepsKept(c, a, b, w, i);
      } else if Leaves(a, b, i) {
        LeavesKeepsKept(c, a, b, w, i);
      } else if Breaks(a, b, i) {
        BreaksKeepsKept(c, a, b, w, i);
      } else {
        JournalsKeepsKept(c, a, b, w, i);
      }
    }
  }

  lemma Unmoved(c: CompiledPlan, a: Shared, w: World)
    requires Shares(a, w) && Kept(c, a.view, w)
    ensures With(w, a) == w && Kept(c, a.view, With(w, a)) && Grows(w, With(w, a)) && Even(a.lost, a.view, a.view)
  {
    hide WorldOk, RunOk, HeldOk;
    EvenWithItself(a.lost, a.view);
  }

  /** The same for an executor that holds a copy of its own. */
  lemma OperatorStepKeepsSound(c: CompiledPlan, a: Shared, b: Shared, memory: Manifest, w: World)
    requires Shares(a, w) && Sound(c, a.view, memory, w) && OperatorStep(a, b)
    ensures Sound(c, b.view, memory, With(w, b)) && Grows(w, With(w, b))
    ensures Even(b.lost, a.view, b.view)
  {
    hide Kept, OperatorStep, RunOk, KeepsAttempts, KeepsCompleted;
    OperatorStepKeepsKept(c, a, b, w);
    RunOkGrows(c, memory, w, With(w, b));
    FollowsTransitive(b.lost, b.view, a.view, memory);
  }
}
