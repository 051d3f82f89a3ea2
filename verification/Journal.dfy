/**
  * The crash-safe run journal of packages/agent-runtime/src/engine/state.ts.
  *
  * A disk is the value of the three files an append touches. Every durable primitive of the store
  * (an atomic rename-write, a one-line append, a remove) is one step, and a crash can fall between
  * any two steps, as can a file operation that fails with the process going on. `Recover` is the
  * specification of one completed recovery.
  */
module Journal {
  import opened Basics
  import opened PlanTypes
  import opened RunTypes

  datatype EventTransaction = EventTransaction(schemaVersion: int, event: RunEvent, manifest: Manifest)

  datatype Disk = Disk(manifest: Option<Manifest>, events: seq<RunEvent>, transaction: Option<EventTransaction>)

  const TRANSACTION_VERSION := 1

  /** The log holds this run's events numbered 1, 2, 3, ... without gap or repetition. */
  predicate WellFormedLog(runId: string, events: seq<RunEvent>) {
    forall i :: 0 <= i < |events| ==> events[i].runId == runId && events[i].sequence == i + 1
  }

  /** No transaction is pending, and the manifest is about to number the event after the log's end. */
  predicate Settled(runId: string, d: Disk) {
    && d.transaction.None?
    && d.manifest.Some?
    && d.manifest.value.runId == runId
    && WellFormedLog(runId, d.events)
    && d.manifest.value.nextSequence == |d.events| + 1
  }

  /** One recovery that runs to its end: `loadManifest`, `readEvents` and `appendEvent` start with it. */
  function Recover(runId: string, d: Disk): Exit<Disk> {
    match d.transaction
    case None => Done(d)
    case Some(t) =>
      if t.schemaVersion != TRANSACTION_VERSION then Thrown(UnsupportedTransaction)
      else if t.event.runId != runId || t.manifest.runId != runId then Thrown(TransactionIdentity)
      else if !WellFormedLog(runId, d.events) then Thrown(CorruptLog)
      else if 1 <= t.event.sequence <= |d.events| then
        if d.events[t.event.sequence - 1] != t.event then Thrown(ConflictingEvent)
        else Done(Disk(Some(t.manifest), d.events, None))
      else if t.event.sequence != |d.events| + 1 then Thrown(SequenceGap)
      else Done(Disk(Some(t.manifest), d.events + [t.event], None))
  }

  /** The disks a recovery leaves behind, one per durable step; a crash stops it at any of them. */
  function RecoveryTrail(runId: string, d: Disk): (trail: seq<Disk>)
    requires Recover(runId, d).Done?
    ensures |trail| > 0 && trail[0] == d && trail[|trail| - 1] == Recover(runId, d).value
  {
    match d.transaction
    case None => [d]
    case Some(t) =>
      var appended := Recover(runId, d).value.events;
      var logged := d.(events := appended);
      var installed := logged.(manifest := Some(t.manifest));
      if appended == d.events then [d, installed, installed.(transaction := None)]
      else [d, logged, installed, installed.(transaction := None)]
  }

  /** The disks an append leaves behind on a recovered disk. */
  function AppendTrail(d: Disk, next: Manifest, event: RunEvent): (trail: seq<Disk>)
    ensures |trail| == 5 && trail[0] == d && trail[4] == Disk(Some(next), d.events + [event], None)
  {
    var prepared := d.(transaction := Some(EventTransaction(TRANSACTION_VERSION, event, next)));
    var logged := prepared.(events := d.events + [event]);
    var installed := logged.(manifest := Some(next));
    [d, prepared, logged, installed, Disk(Some(next), d.events + [event], None)]
  }

  /** Recoveries that crash after `crashes[0]`, `crashes[1]`, ... durable steps, one after the other. */
  ghost function AfterCrashes(runId: string, d: Disk, crashes: seq<nat>): Disk
    requires Recover(runId, d).Done?
    decreases |crashes|
  {
    if crashes == [] then d
    else
      var trail := RecoveryTrail(runId, d);
      var stopped := trail[if crashes[0] < |trail| then crashes[0] else |trail| - 1];
      RecoverySurvivesCrash(runId, d, if crashes[0] < |trail| then crashes[0] else |trail| - 1);
      AfterCrashes(runId, stopped, crashes[1..])
  }

  /** A recovery that died after any number of steps is finished by the next one with the same result. */
  lemma RecoverySurvivesCrash(runId: string, d: Disk, k: nat)
    requires Recover(runId, d).Done?
    requires k < |RecoveryTrail(runId, d)|
    ensures Recover(runId, RecoveryTrail(runId, d)[k]) == Recover(runId, d)
  {
    if d.transaction.Some? {
      var t := d.transaction.value;
      var appended := Recover(runId, d).value.events;
      assert WellFormedLog(runId, appended) && appended[t.event.sequence - 1] == t.event;
    }
  }

  /** Any number of crashes inside recovery changes nothing about what a completed recovery yields. */
  lemma {:induction false} RecoveryConverges(runId: string, d: Disk, crashes: seq<nat>)
    requires Recover(runId, d).Done?
    ensures Recover(runId, AfterCrashes(runId, d, crashes)) == Recover(runId, d)
    decreases |crashes|
  {
    if crashes != [] {
      var trail := RecoveryTrail(runId, d);
      var k := if crashes[0] < |trail| then crashes[0] else |trail| - 1;
      RecoverySurvivesCrash(runId, d, k);
      RecoveryConverges(runId, trail[k], crashes[1..]);
    }
  }

  /** A crash inside an append on a settled disk is seen by recovery as "not begun" or "finished". */
  lemma AppendCrashPoint(runId: string, d: Disk, next: Manifest, event: RunEvent, k: nat)
    requires Settled(runId, d)
    requires event.runId == next.runId == runId
    requires event.sequence == d.manifest.value.nextSequence
    requires k < 5
    ensures Recover(runId, AppendTrail(d, next, event)[k]) ==
            Done(if k == 0 then d else Disk(Some(next), d.events + [event], None))
  {
  }

  /**
    * Crash atomicity of the journal. Whatever step the append died at, and however many recoveries
    * died after it, the first recovery that completes shows exactly the disk before the append
    * (the transaction file was never written) or exactly the disk after it (the event is present
    * once, the new manifest is installed, and the transaction file is gone).
    */
  lemma AppendIsCrashAtomic(runId: string, d: Disk, next: Manifest, event: RunEvent, k: nat, crashes: seq<nat>)
    requires Settled(runId, d)
    requires event.runId == next.runId == runId
    requires event.sequence == d.manifest.value.nextSequence
    requires next.nextSequence == event.sequence + 1
    requires k < 5
    ensures var stopped := AppendTrail(d, next, event)[k];
            && Recover(runId, stopped).Done?
            && var settled := Recover(runId, AfterCrashes(runId, stopped, crashes));
               && settled.Done?
               && Settled(runId, settled.value)
               && (if k == 0 then settled.value == d
                   else settled.value == Disk(Some(next), d.events + [event], None))
  {
    AppendCrashPoint(runId, d, next, event, k);
    RecoveryConverges(runId, AppendTrail(d, next, event)[k], crashes);
  }

  /** What the caller of `appendEvent` supplies; the store adds run and sequence. */
  datatype EventDraft = EventDraft(kind: EventKind, taskId: Option<string>, workerId: Option<string>) {
    function Numbered(runId: string, sequence: nat): RunEvent {
      RunEvent(sequence, runId, kind, taskId, workerId)
    }
  }

  /** `appendEvent` when nothing crashes: a thrown append still leaves the recovered disk behind. */
  function AppendResult(runId: string, d: Disk, cancelled: bool, holder: Manifest, draft: EventDraft): Exit<Disk> {
    var settled :- Recover(runId, d);
    if settled.manifest.None? then Thrown(RunNotFound)
    else
      var sequence := settled.manifest.value.nextSequence;
      if sequence != holder.nextSequence && !cancelled then Thrown(StaleManifest)
      else Done(AppendTrail(settled, holder.(nextSequence := sequence + 1), draft.Numbered(holder.runId, sequence))[4])
  }

  /** One call by any holder of an in-memory manifest, current or stale. */
  datatype AppendCall = AppendCall(holder: Manifest, draft: EventDraft, cancelled: bool)

  /** The disk after a list of calls by any holders in any order. */
  function AfterCalls(runId: string, d: Disk, calls: seq<AppendCall>): Disk
    decreases |calls|
  {
    if calls == [] then d
    else
      var result := AppendResult(runId, d, calls[0].cancelled, calls[0].holder, calls[0].draft);
      var recovered := if Recover(runId, d).Done? then Recover(runId, d).value else d;
      AfterCalls(runId, if result.Done? then result.value else recovered, calls[1..])
  }

  /** How many of the calls the store accepts: the others find their holder stale and add nothing. */
  function AcceptedCalls(runId: string, d: Disk, calls: seq<AppendCall>): nat
    requires Settled(runId, d)
    requires forall c :: c in calls ==> c.holder.runId == runId
    decreases |calls|
  {
    if calls == [] then 0
    else if d.manifest.value.nextSequence != calls[0].holder.nextSequence && !calls[0].cancelled then
      AcceptedCalls(runId, d, calls[1..])
    else
      var next := AppendResult(runId, d, calls[0].cancelled, calls[0].holder, calls[0].draft).value;
      1 + AcceptedCalls(runId, next, calls[1..])
  }

  /**
    * Executors, cancellations and approvals may journal through their own copies of the manifest, in
    * any order and however stale. The log stays gap-free and duplicate-free from 1 with the persisted
    * `nextSequence` one past its end, no old event is ever changed, and exactly the accepted calls add
    * an event each.
    */
  lemma {:induction false} HoldersKeepTheJournal(runId: string, d: Disk, calls: seq<AppendCall>)
    requires Settled(runId, d)
    requires forall c :: c in calls ==> c.holder.runId == runId
    ensures Settled(runId, AfterCalls(runId, d, calls))
    ensures d.events <= AfterCalls(runId, d, calls).events
    ensures |AfterCalls(runId, d, calls).events| == |d.events| + AcceptedCalls(runId, d, calls)
    decreases |calls|
  {
    if calls != [] {
      var result := AppendResult(runId, d, calls[0].cancelled, calls[0].holder, calls[0].draft);
      HoldersKeepTheJournal(runId, if result.Done? then result.value else d, calls[1..]);
    }
  }

  // ---- saveManifest has no sequence check ----

  /**
    * `saveManifest` on a settled disk keeps the journal consistent exactly when the holder's
    * `nextSequence` is the persisted one. If it is behind, the store then accepts that holder's
    * next append and gives it a number the log already uses.
    */
  lemma SaveManifestIsSafeIffCurrent(runId: string, d: Disk, holder: Manifest, draft: EventDraft)
    requires Settled(runId, d) && holder.runId == runId
    ensures var saved := d.(manifest := Some(holder));
            && (Settled(runId, saved) <==> holder.nextSequence == d.manifest.value.nextSequence)
            && var after := AppendResult(runId, saved, false, holder, draft);
               && after.Done?
               && (WellFormedLog(runId, after.value.events) <==> holder.nextSequence == d.manifest.value.nextSequence)
  {
    var saved := d.(manifest := Some(holder));
    var after := AppendResult(runId, saved, false, holder, draft).value;
    assert after.events[|d.events|] == draft.Numbered(runId, holder.nextSequence);
    forall i | 0 <= i < |d.events| ensures after.events[i] == d.events[i] {}
  }

  /** A save made while a transaction is pending is lost: the next recovery installs the transaction's manifest. */
  lemma SaveUnderPendingTransactionIsLost(runId: string, d: Disk, holder: Manifest)
    requires d.transaction.Some?
    ensures Recover(runId, d.(manifest := Some(holder))) == Recover(runId, d)
  {
  }

  // ---- a holder whose append comes late ----

  /** The manifest `cancel` writes from the copy it loaded. */
  function CancelledCopy(loaded: Manifest): Manifest {
    loaded.(cancellationRequested := true)
  }

  lemma {:induction false} RefusedCallsChangeNothing(runId: string, d: Disk, calls: seq<AppendCall>)
    requires Settled(runId, d)
    requires forall c :: c in calls ==> c.holder.runId == runId
    requires AcceptedCalls(runId, d, calls) == 0
    ensures AfterCalls(runId, d, calls) == d
    decreases |calls|
  {
    if calls != [] {
      RefusedCallsChangeNothing(runId, d, calls[1..]);
    }
  }

  /** What is persisted is the copy of the holder that was accepted last. */
  lemma {:induction false} LastAccepted(runId: string, d: Disk, calls: seq<AppendCall>) returns (k: nat)
    requires Settled(runId, d)
    requires forall c :: c in calls ==> c.holder.runId == runId
    requires AcceptedCalls(runId, d, calls) > 0
    ensures k < |calls| && AfterCalls(runId, d, calls).manifest.Some?
    ensures var persisted := AfterCalls(runId, d, calls).manifest.value;
            persisted == calls[k].holder.(nextSequence := persisted.nextSequence)
    decreases |calls|
  {
    var result := AppendResult(runId, d, calls[0].cancelled, calls[0].holder, calls[0].draft);
    var next := if result.Done? then result.value else d;
    if AcceptedCalls(runId, next, calls[1..]) > 0 {
      var j := LastAccepted(runId, next, calls[1..]);
      k := j + 1;
    } else {
      RefusedCallsChangeNothing(runId, next, calls[1..]);
      k := 0;
    }
  }

  /**
    * `cancel` and `recordApproval` load the manifest and journal their copy of it later, as separate store
    * calls. Whatever was journalled in between, by any holders, the late append is accepted exactly if none
    * of it was or a cancellation is on record. The log keeps every event; but the persisted manifest becomes
    * the old copy, so tasks and checkpoints keep exactly what they were when it was loaded.
    */
  lemma LateAppendKeepsWhatItLoaded(runId: string, d: Disk, between: seq<AppendCall>, copy: Manifest, draft: EventDraft,
                                    cancelled: bool)
    requires Settled(runId, d) && copy.runId == runId
    requires copy.nextSequence == d.manifest.value.nextSequence
    requires copy.taskStates == d.manifest.value.taskStates && copy.checkpoints == d.manifest.value.checkpoints
    requires forall c :: c in between ==> c.holder.runId == runId
    ensures var now, accepted := AfterCalls(runId, d, between), AcceptedCalls(runId, d, between);
            && Settled(runId, now) && now.manifest.value.nextSequence == copy.nextSequence + accepted
            && (accepted == 0 ==> now == d)
            && (accepted > 0 ==> exists c :: c in between && now.manifest.value.taskStates == c.holder.taskStates
                                             && now.manifest.value.checkpoints == c.holder.checkpoints)
            && var late := AppendResult(runId, now, cancelled, copy, draft);
               && (late.Done? <==> accepted == 0 || cancelled)
               && (late.Done? ==>
                     && Settled(runId, late.value) && now.events < late.value.events
                     && late.value.manifest.value.taskStates == d.manifest.value.taskStates
                     && late.value.manifest.value.checkpoints == d.manifest.value.checkpoints)
  {
    HoldersKeepTheJournal(runId, d, between);
    if AcceptedCalls(runId, d, between) == 0 {
      RefusedCallsChangeNothing(runId, d, between);
    } else {
      var k := LastAccepted(runId, d, between);
      assert between[k] in between;
    }
  }

  /**
    * A save does not count as an entry. A copy that an operator loaded before it still has the persisted
    * number, so its append is accepted without any cancellation and puts the old status back; after an entry
    * by the executor it is refused.
    */
  lemma SaveDoesNotRefuseOlderCopies(runId: string, d: Disk, executor: Manifest, copy: Manifest, draft: EventDraft,
                                     request: EventDraft)
    requires Settled(runId, d) && executor.runId == runId && copy.runId == runId
    requires executor.nextSequence == copy.nextSequence == d.manifest.value.nextSequence
    ensures var saved := d.(manifest := Some(executor));
            && Settled(runId, saved)
            && var after := AppendResult(runId, saved, false, copy, request);
               after.Done? && Settled(runId, after.value) && after.value.manifest.value.status == copy.status
    ensures var journalled := AppendResult(runId, d, false, executor, draft);
            && journalled.Done?
            && AppendResult(runId, journalled.value, false, copy, request) == Thrown(StaleManifest)
  {
  }

  // ---- approvals ----

  /** The last record for a task and phase decides (`latestApproval`). */
  function LatestApproval(log: seq<ApprovalRecord>, taskId: string, phase: ApprovalPhase): (r: Option<ApprovalRecord>)
    ensures r.Some? ==> r.value in log && r.value.taskId == taskId && r.value.phase == phase
    ensures r.None? <==> forall a :: a in log ==> a.taskId != taskId || a.phase != phase
  {
    if log == [] then None
    else
      var last := log[|log| - 1];
      if last.taskId == taskId && last.phase == phase then Some(last)
      else LatestApproval(log[..|log| - 1], taskId, phase)
  }

  /** The first event with the given number, as `Array.find` returns it. */
  function FindEvent(events: seq<RunEvent>, sequence: nat): Option<RunEvent> {
    if events == [] then None
    else if events[0].sequence == sequence then Some(events[0])
    else FindEvent(events[1..], sequence)
  }

  lemma {:induction false} FindInLog(events: seq<RunEvent>, sequence: nat, first: nat)
    requires forall i :: 0 <= i < |events| ==> events[i].sequence == first + i
    ensures FindEvent(events, sequence) ==
            if first <= sequence < first + |events| then Some(events[sequence - first]) else None
  {
    if events != [] {
      FindInLog(events[1..], sequence, first + 1);
    }
  }

  // ---- the store ----

  /** An in-memory run manifest: each executor, cancellation or approval holds its own. */
  class RunManifest {
    const runId: string
    const planDigest: string
    const taskOrder: seq<string>
    var status: RunStatus
    var currentTaskId: Option<string>
    var taskStates: map<string, TaskState>
    var checkpoints: seq<Checkpoint>
    var approvals: seq<ApprovalRecord>
    var policyDecisions: seq<PolicyDecision>
    var failure: Option<RunFailure>
    var cancellationRequested: bool
    var nextSequence: nat
    var metrics: RunMetrics

    constructor (m: Manifest)
      ensures Snapshot() == m
    {
      runId, planDigest, taskOrder := m.runId, m.planDigest, m.taskOrder;
      status, currentTaskId, taskStates := m.status, m.currentTaskId, m.taskStates;
      checkpoints, approvals, policyDecisions := m.checkpoints, m.approvals, m.policyDecisions;
      failure, cancellationRequested := m.failure, m.cancellationRequested;
      nextSequence, metrics := m.nextSequence, m.metrics;
    }

    /** The value that serialising this manifest writes (`structuredClone`, `JSON.stringify`). */
    function Snapshot(): Manifest
      reads this
    {
      Manifest(runId, planDigest, taskOrder, status, currentTaskId, taskStates, checkpoints, approvals,
               policyDecisions, failure, cancellationRequested, nextSequence, metrics)
    }
  }

  /** What every durable step may meet: it goes on, a file operation fails, or the process dies. */
  method Meet() returns (r: Exit<()>)
    ensures r.Done? || r.BrokeOff()
  {
    var goesOn: bool := *;
    if goesOn {
      return Done(());
    }
    var dies: bool := *;
    return if dies then Crashed else Thrown(StoreFailure);
  }

  /**
    * The run directory. `calls` is not on disk: it holds the operators' calls that other processes have
    * begun and not finished. `lost` records whether one of them journalled a copy that counted other attempts or
    * checkpoints than the persisted manifest.
    */
  class RunStateStore {
    const runId: string
    var directoryExists: bool
    var planFile: Option<Plan>
    var manifestFile: Option<Manifest>
    var eventsFile: seq<RunEvent>
    var transactionFile: Option<EventTransaction>
    var approvalsFile: seq<ApprovalRecord>
    var cancellationFile: bool
    var calls: seq<OperatorCall>
    ghost var lost: Lost

    constructor (runId: string)
      ensures this.runId == runId
      ensures !directoryExists && planFile == None && Snapshot() == Disk(None, [], None)
      ensures approvalsFile == [] && !cancellationFile && calls == [] && lost == NOTHING_LOST
    {
      this.runId := runId;
      directoryExists, planFile := false, None;
      manifestFile, eventsFile, transactionFile := None, [], None;
      approvalsFile, cancellationFile := [], false;
      calls, lost := [], NOTHING_LOST;
    }

    function Snapshot(): Disk
      reads this
    {
      Disk(manifestFile, eventsFile, transactionFile)
    }

    /** Writes the plan snapshot, then the manifest; the two empty logs change nothing readable. */
    method CreateRun(manifest: RunManifest, plan: Plan) returns (r: Exit<()>)
      modifies `directoryExists, `planFile, `manifestFile
      ensures r == Thrown(RunExists) <==> old(directoryExists)
      ensures r == Thrown(RunExists) ==> planFile == old(planFile) && manifestFile == old(manifestFile)
      ensures r.Done? || r == Thrown(RunExists) || r.BrokeOff()
      ensures manifestFile == old(manifestFile) || manifestFile == Some(manifest.Snapshot())
      ensures r.Done? || manifestFile != old(manifestFile) ==> planFile == Some(plan)
      ensures r.Done? ==> directoryExists && manifestFile == Some(manifest.Snapshot())
    {
      if directoryExists {
        return Thrown(RunExists);
      }
      var _ :- Meet();
      directoryExists := true;
      var _ :- Meet();
      planFile := Some(plan);
      var _ :- Meet();
      manifestFile := Some(manifest.Snapshot());
      r := Meet();
    }

    method SaveManifest(manifest: RunManifest) returns (r: Exit<()>)
      modifies `manifestFile
      ensures r.Done? || r.BrokeOff()
      ensures manifestFile == Some(manifest.Snapshot()) || (!r.Done? && manifestFile == old(manifestFile))
    {
      var _ :- Meet();
      manifestFile := Some(manifest.Snapshot());
      r := Meet();
    }

    method RawEvents() returns (r: Exit<seq<RunEvent>>)
      ensures r == if WellFormedLog(runId, eventsFile) then Done(eventsFile) else Thrown(CorruptLog)
    {
      var expectedSequence := 1;
      for index := 0 to |eventsFile|
        invariant expectedSequence == index + 1
        invariant WellFormedLog(runId, eventsFile[..index])
      {
        var event := eventsFile[index];
        if event.runId != runId {
          return Thrown(CorruptLog);
        }
        if event.sequence != expectedSequence {
          return Thrown(CorruptLog);
        }
        assert eventsFile[..index + 1] == eventsFile[..index] + [event];
        expectedSequence := expectedSequence + 1;
      }
      assert eventsFile[..|eventsFile|] == eventsFile;
      r := Done(eventsFile);
    }

    /** Ends as `Recover` says, or breaks off on the recovery's trail. */
    method RecoverPendingEventTransaction() returns (r: Exit<()>)
      modifies `manifestFile, `eventsFile, `transactionFile
      ensures var recovered := Recover(runId, old(Snapshot()));
              && (recovered.Done? ==> Snapshot() in RecoveryTrail(runId, old(Snapshot())))
              && (r.Done? ==> recovered == Done(Snapshot()))
              && (recovered.Thrown? ==> r == Thrown(recovered.fault) && Snapshot() == old(Snapshot()))
              && (recovered.Done? ==> r.Done? || r.BrokeOff())
    {
      ghost var before := Snapshot();
      if transactionFile.None? {
        return Done(());
      }
      var transaction := transactionFile.value;
      if transaction.schemaVersion != TRANSACTION_VERSION {
        return Thrown(UnsupportedTransaction);
      }
      if transaction.event.runId != runId || transaction.manifest.runId != runId {
        return Thrown(TransactionIdentity);
      }
      var events :- RawEvents();
      FindInLog(events, transaction.event.sequence, 1);
      var existing := FindEvent(events, transaction.event.sequence);
      if existing.Some? && existing.value != transaction.event {
        return Thrown(ConflictingEvent);
      }
      ghost var trail := if Recover(runId, before).Done? then RecoveryTrail(runId, before) else [before];
      if existing.None? {
        if transaction.event.sequence != |events| + 1 {
          return Thrown(SequenceGap);
        }
        assert Snapshot() == trail[0];
        var _ :- Meet();
        eventsFile := eventsFile + [transaction.event];
        assert Snapshot() == trail[1];
      }
      assert Snapshot() in trail;
      var _ :- Meet();
      manifestFile := Some(transaction.manifest);
      assert Snapshot() == trail[|trail| - 2];
      var _ :- Meet();
      transactionFile := None;
      assert Snapshot() == trail[|trail| - 1];
      r := Meet();
    }

    method LoadManifest() returns (r: Exit<RunManifest>)
      modifies `manifestFile, `eventsFile, `transactionFile
      ensures var recovered := Recover(runId, old(Snapshot()));
              && (recovered.Done? ==> Snapshot() in RecoveryTrail(runId, old(Snapshot())))
              && (r.Done? ==> recovered == Done(Snapshot()) && manifestFile.Some?)
              && (r.Done? ==> fresh(r.value) && r.value.Snapshot() == manifestFile.value)
              && (recovered.Thrown? || old(manifestFile).None? ==> r.Thrown? && Snapshot() == old(Snapshot()))
              && (recovered.Done? && old(manifestFile).Some? ==> r.Done? || r.BrokeOff())
              && (r.Thrown? ==> !r.fault.LeaseHeld?)
    {
      if manifestFile.None? {
        return Thrown(RunNotFound);
      }
      var _ :- RecoverPendingEventTransaction();
      var manifest := new RunManifest(manifestFile.value);
      r := Done(manifest);
    }

    /**
      * Ends as `AppendResult` says; a thrown append leaves the holder alone, an accepted one advances
      * only its `nextSequence`. One that breaks off leaves the disk on the recovery's trail or on the append's.
      */
    method AppendEvent(manifest: RunManifest, draft: EventDraft) returns (r: Exit<()>)
      modifies `manifestFile, `eventsFile, `transactionFile, manifest`nextSequence
      ensures var before, holder := old(Snapshot()), old(manifest.Snapshot());
              var recovered := Recover(runId, before);
              var result := AppendResult(runId, before, cancellationFile, holder, draft);
              && (r.Done? ==> result == Done(Snapshot()))
              && (r.Done? ==> manifest.nextSequence == recovered.value.manifest.value.nextSequence + 1)
              && (!r.Done? && !r.BrokeOff() ==>
                    && result == Thrown(r.fault) && manifest.nextSequence == holder.nextSequence
                    && (recovered == Done(Snapshot()) || Snapshot() == before))
              && (r.Done? ==>
                    && eventsFile != []
                    && eventsFile[|eventsFile| - 1] ==
                       RunEvent(manifest.nextSequence - 1, manifest.runId, draft.kind, draft.taskId, draft.workerId))
              && (r.BrokeOff() ==> recovered.Done?)
              && (r.BrokeOff() ==>
                    || Snapshot() in RecoveryTrail(runId, before)
                    || (result.Done? && Snapshot() in Appending(recovered.value, holder, draft)))
    {
      ghost var holder := manifest.Snapshot();
      var _ :- RecoverPendingEventTransaction();
      if manifestFile.None? {
        return Thrown(RunNotFound);
      }
      var persisted := manifestFile.value;
      if persisted.nextSequence != manifest.nextSequence {
        if !cancellationFile {
          return Thrown(StaleManifest);
        }
        manifest.nextSequence := persisted.nextSequence;
      }
      var recorded := draft.Numbered(manifest.runId, manifest.nextSequence);
      var next := manifest.Snapshot();
      next := next.(nextSequence := next.nextSequence + 1);
      assert next == holder.(nextSequence := persisted.nextSequence + 1);
      var _ :- CommitTransaction(recorded, next);
      manifest.nextSequence := next.nextSequence;
      r := Done(());
    }

    /** The four durable steps of an append. */
    method CommitTransaction(recorded: RunEvent, next: Manifest) returns (r: Exit<()>)
      requires transactionFile.None?
      modifies `manifestFile, `eventsFile, `transactionFile
      ensures r.Done? || r.BrokeOff()
      ensures Snapshot() in AppendTrail(old(Snapshot()), next, recorded)
      ensures r.Done? ==> Snapshot() == AppendTrail(old(Snapshot()), next, recorded)[4]
    {
      ghost var trail := AppendTrail(Snapshot(), next, recorded);
      assert Snapshot() == trail[0];
      var _ :- Meet();
      transactionFile := Some(EventTransaction(TRANSACTION_VERSION, recorded, next));
      assert Snapshot() == trail[1];
      var _ :- Meet();
      eventsFile := eventsFile + [recorded];
      assert Snapshot() == trail[2];
      var _ :- Meet();
      manifestFile := Some(next);
      assert Snapshot() == trail[3];
      var _ :- Meet();
      transactionFile := None;
      assert Snapshot() == trail[4];
      r := Meet();
    }

    method ReadEvents() returns (r: Exit<seq<RunEvent>>)
      modifies `manifestFile, `eventsFile, `transactionFile
      ensures var recovered := Recover(runId, old(Snapshot()));
              && (recovered.Done? ==> Snapshot() in RecoveryTrail(runId, old(Snapshot())))
              && (r.Done? ==> recovered == Done(Snapshot()) && r.value == eventsFile)
              && (r.Done? ==> WellFormedLog(runId, eventsFile))
              && (recovered.Thrown? ==> r.Thrown? && Snapshot() == old(Snapshot()))
    {
      var _ :- RecoverPendingEventTransaction();
      r := RawEvents();
    }

    method RecordApproval(record: ApprovalRecord) returns (r: Exit<()>)
      modifies `approvalsFile
      ensures r.Done? || r.BrokeOff()
      ensures approvalsFile == old(approvalsFile) + [record] || (!r.Done? && approvalsFile == old(approvalsFile))
    {
      var _ :- Meet();
      approvalsFile := approvalsFile + [record];
      r := Meet();
    }

    method RequestCancellation() returns (r: Exit<()>)
      modifies `cancellationFile
      ensures r.Done? || r.BrokeOff()
      ensures cancellationFile || (!r.Done? && !old(cancellationFile))
    {
      var _ :- Meet();
      cancellationFile := true;
      r := Meet();
    }
  }

  /** The trail of an append by a holder on a recovered disk that has a manifest. */
  ghost function Appending(settled: Disk, holder: Manifest, draft: EventDraft): seq<Disk>
    requires settled.manifest.Some?
  {
    var sequence := settled.manifest.value.nextSequence;
    AppendTrail(settled, holder.(nextSequence := sequence + 1), draft.Numbered(holder.runId, sequence))
  }
}
