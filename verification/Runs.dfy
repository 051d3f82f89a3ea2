/**
  * `run` and `resume` of packages/agent-runtime/src/engine/orchestrator.ts, and every history they can
  * produce together with cancellations, approvals, crashes and edits of the plan snapshot.
  */
module Runs {
  import opened Basics
  import opened PlanTypes
  import opened RunTypes
  import opened TaskGraph
  import opened Worktrees
  import opened Journal
  import opened CompiledPlans
  import opened RunProtocol
  import opened RunSteps
  import opened Operators
  import opened Runtime
  import opened RunLoop
  import opened PlanCompiler
  import opened Policy
  import opened RunTheorems

  /** The compiled plan of a run came out of the compiler. */
  ghost predicate CompiledBy(c: CompiledPlan, hash: PlanHash) {
    exists plan, from :: Accepted(plan) && c == Compiled(plan, from, hash)
  }

  lemma CompiledPlansRecompile(c: CompiledPlan, from: string, hash: PlanHash)
    requires CompiledBy(c, hash)
    ensures CompiledOk(c) && Accepted(c.plan) && Compiled(c.plan, from, hash) == c
    ensures c.digest == hash(c.plan) && c.taskOrder == Graph(c.plan.tasks).order
  {
    hide CompiledOk, Accepted, Graph, ResolvePath;
    var plan, origin :| Accepted(plan) && c == Compiled(plan, origin, hash);
    AcceptedPlansCompile(plan, origin, hash);
    RecompilingChangesNothing(plan, origin, from, hash);
  }

  /** The digest tells the run's plan from every other plan. */
  ghost predicate Distinguishes(hash: PlanHash, c: CompiledPlan) {
    forall p :: hash(p) == c.digest ==> p == c.plan
  }

  ghost function WorldOf(store: RunStateStore, worktree: Worktree): World
    reads store, worktree
  {
    World(worktree.base, worktree.landings, worktree.starts, store.approvalsFile, store.cancellationFile, store.calls,
          store.lost)
  }

  /** What every process finds of the run, and leaves. */
  ghost predicate Persisted(c: CompiledPlan, store: RunStateStore, worktree: Worktree)
    reads store, worktree
  {
    CompiledOk(c) && JournalOk(store) && worktree.Valid() && Kept(c, View(store), WorldOf(store, worktree))
  }

  ghost function MomentOf(store: RunStateStore, worktree: Worktree): Moment
    requires JournalOk(store)
    reads store, worktree
  {
    Moment(View(store), WorldOf(store, worktree), Log(store))
  }

  lemma LoadedIsSound(c: CompiledPlan, view: Manifest, w: World)
    requires Kept(c, view, w)
    ensures Sound(c, view, view, w)
  {
  }

  // ---- resume ----

  /** Only the current task can be in flight. */
  lemma QuietUnlessCurrent(x: RunExecution)
    requires x.Live()
    requires x.manifest.currentTaskId.None?
             || x.manifest.currentTaskId.value !in x.manifest.taskStates
             || !x.manifest.taskStates[x.manifest.currentTaskId.value].phase.InFlight()
    ensures Quiet(x)
  {
    hide WorldOk, JournalOk, View, Log, Worktree.Valid, CompiledOk, TaskOf, AttemptsOk, StatusOk;
    var m := x.manifest.Snapshot();
    if |m.checkpoints| < |x.compiled.taskOrder| {
      assert FrontOk(x.compiled, Front(x.compiled, m), m.taskStates[Front(x.compiled, m)], m);
    }
  }

  /** The current task is in flight. */
  ghost predicate UnderWay(m: Manifest) {
    var current := m.currentTaskId;
    current.Some? && current.value in m.taskStates && m.taskStates[current.value].phase.InFlight()
  }

  /** The worktree is back at HEAD, and the attempt that was under way is closed on disk. */
  ghost predicate RolledBack(store: RunStateStore, worktree: Worktree, before: Manifest)
    requires UnderWay(before)
    reads store, worktree
  {
    && worktree.Clean() && JournalOk(store)
    && View(store) == Recovered(before, before.currentTaskId.value).(nextSequence := View(store).nextSequence)
  }

  /** The worktree and its history are as they were. */
  twostate predicate Untouched(worktree: Worktree)
    reads worktree
  {
    unchanged(worktree)
  }

  /** `recoverInterruptedTask`: an attempt in flight is rolled back to HEAD and closed as interrupted. */
  method RecoverInterruptedTask(x: RunExecution) returns (r: Exit<()>)
    requires x.Live() && !x.manifest.status.Terminal()
    modifies x.store, x.manifest, x.worktree`index, x.worktree`working, x.worktree`ignored
    ensures x.Durable() && After(old(x.Here()), x.Here())
    ensures !r.Crashed? ==> x.Live()
    ensures r.Done? ==>
              Quiet(x) && !x.manifest.status.Terminal() && x.manifest.checkpoints == old(x.manifest.checkpoints)
    ensures r.Done? && old(UnderWay(x.manifest.Snapshot())) ==>
              && RolledBack(x.store, x.worktree, old(x.manifest.Snapshot())) && x.manifest.Snapshot() == View(x.store)
              && |old(Log(x.store))| < |Log(x.store)|
    ensures !old(UnderWay(x.manifest.Snapshot())) ==>
              r.Done? && unchanged(x.store) && unchanged(x.manifest) && Untouched(x.worktree)
    ensures r.Thrown? ==> !r.fault.LeaseHeld?
    ensures old(x.Flushed()) ==> x.Flushed() && Level(NOTHING_LOST, old(x.manifest.Snapshot()), x.manifest.Snapshot())
  {
    hide Sound, Kept, CompiledOk, JournalOk, View, Log, Worktree.Valid, TaskOf;
    SoundIsKept(x.compiled, View(x.store), x.manifest.Snapshot(), x.World());
    var current := x.manifest.currentTaskId;
    if current.None? || current.value !in x.manifest.taskStates || !x.manifest.taskStates[current.value].phase.InFlight() {
      QuietUnlessCurrent(x);
      return Done(());
    }
    InFlightIsFront(x.compiled, View(x.store), x.manifest.Snapshot(), x.World(), current.value);
    FrontTask(x.compiled, View(x.store), x.manifest.Snapshot(), x.World());
    r := RollBack(x, TaskOf(x.compiled, current.value));
  }

  method RollBack(x: RunExecution, ghost task: Task) returns (r: Exit<()>)
    requires x.Live() && !x.manifest.status.Terminal() && x.manifest.currentTaskId == Some(task.id)
    requires At(x.compiled, x.manifest.Snapshot(), task)
    modifies x.store, x.manifest, x.worktree`index, x.worktree`working, x.worktree`ignored
    ensures x.Durable() && After(old(x.Here()), x.Here())
    ensures !r.Crashed? ==> x.Live()
    ensures r.Done? ==>
              Quiet(x) && !x.manifest.status.Terminal() && x.manifest.checkpoints == old(x.manifest.checkpoints)
    ensures r.Done? ==> x.manifest.Snapshot() == x.Now(Recovered(old(x.manifest.Snapshot()), task.id))
    ensures r.Done? ==> x.Journalled(EventDraft(RunRecoveredEvent, Some(task.id), None))
    ensures r.Done? ==> |old(Log(x.store))| < |Log(x.store)|
    ensures r.Done? ==> x.worktree.Clean() && View(x.store) == x.manifest.Snapshot()
    ensures r.Thrown? ==> !r.fault.LeaseHeld?
    ensures old(x.Flushed()) ==> x.Flushed() && Level(NOTHING_LOST, old(x.manifest.Snapshot()), x.manifest.Snapshot())
  {
    hide Sound, Kept, CompiledOk, JournalOk, View, Log, Worktree.Valid, TaskOf, RunExecution.Journalled;
    var _ :- x.Reset();
    CloseInterrupted(x, task);
    r := x.Journal(EventDraft(RunRecoveredEvent, x.manifest.currentTaskId, None));
  }

  method CloseInterrupted(x: RunExecution, ghost task: Task)
    requires x.Live() && x.manifest.currentTaskId == Some(task.id)
    requires At(x.compiled, x.manifest.Snapshot(), task)
    modifies x.manifest`taskStates, x.manifest`status
    ensures x.Live() && Quiet(x) && x.manifest.Snapshot() == Recovered(old(x.manifest.Snapshot()), task.id)
  {
    hide Sound, Kept, CompiledOk, JournalOk, View, Log, Worktree.Valid, TaskOf;
    RecoveredIsSound(x.compiled, View(x.store), x.manifest.Snapshot(), x.World(), task);
    var id := x.manifest.currentTaskId.value;
    var state := x.manifest.taskStates[id];
    if state.attempts != [] && Last(state.attempts).status == AttemptRunning {
      var interrupted := RunFailure(Interrupted, true);
      state := WithLast(state, Last(state.attempts).(status := AttemptFailed, failure := Some(interrupted)));
    }
    x.manifest.taskStates := x.manifest.taskStates[id := state.(status := TaskPending, phase := PhasePending)];
    x.manifest.status := RunPending;
  }

  /** The snapshot no longer compiles to the recorded digest: the run stops, and nothing else changes. */
  method StopForPlanChange(x: RunExecution, block: Ending) returns (r: Exit<RunEnd>)
    requires x.Live()
    modifies x.store, x.manifest`status, x.manifest`failure, x.manifest`nextSequence, x`closing
    ensures r == Done(Overwritten) ==> !JournalOk(x.store)
    ensures r != Done(Overwritten) ==> x.Durable() && After(old(x.Here()), x.Here())
    ensures r != Done(Overwritten) && old(x.Flushed()) ==> x.Flushed()
    ensures r.Done? ==> x.manifest.status == RunStopped && x.manifest.failure == Some(RunFailure(PlanChanged, false))
    ensures r.Thrown? ==> !r.fault.LeaseHeld?
  {
    hide Sound, Kept, CompiledOk, JournalOk, View, Log, Worktree.Valid, After;
    PlanChangeIsSound(x.compiled, View(x.store), x.manifest.Snapshot(), x.World());
    x.manifest.status := RunStopped;
    x.manifest.failure := Some(RunFailure(PlanChanged, false));
    var _ :- x.Journal(EventDraft(RunStoppedEvent, x.manifest.currentTaskId, None));
    ghost var before := x.Here();
    r := Finalize(x, block);
    if r != Done(Overwritten) {
      AfterTransitive(old(x.Here()), before, x.Here());
    }
  }

  /** A snapshot that is missing, rejected, or compiles to another digest. */
  ghost predicate Foreign(c: CompiledPlan, snapshot: Option<Plan>, from: string, hash: PlanHash) {
    snapshot.None? || !Accepted(snapshot.value) || Compiled(snapshot.value, from, hash).digest != c.digest
  }

  /** A snapshot is foreign exactly when its plan is not the run's plan, so an unmodified one never is. */
  lemma ForeignIffAnotherPlan(c: CompiledPlan, snapshot: Plan, from: string, hash: PlanHash)
    requires CompiledBy(c, hash) && Distinguishes(hash, c) && Accepted(snapshot)
    ensures Foreign(c, Some(snapshot), from, hash) <==> Absolute(snapshot, from) != c.plan
    ensures !Foreign(c, Some(snapshot), from, hash) ==> Compiled(snapshot, from, hash) == c
    ensures !Foreign(c, Some(c.plan), from, hash)
  {
    hide CompiledOk, Graph, Accepted, CompiledBy, ResolvePath;
    CompiledPlansRecompile(c, from, hash);
  }

  /** Reads and compiles the snapshot; `same` says whether it is still the run's plan. */
  method RecompileSnapshot(ghost compiled: CompiledPlan, store: RunStateStore, manifest: RunManifest, from: string,
                           hash: PlanHash)
    returns (r: Exit<CompiledPlan>, same: bool)
    requires CompiledBy(compiled, hash) && Distinguishes(hash, compiled) && manifest.planDigest == compiled.digest
    ensures !r.Crashed? && (r.Thrown? ==> !r.fault.LeaseHeld?)
    ensures (r.Done? ==> (same <==> !Foreign(compiled, store.planFile, from, hash)))
    ensures r.Done? && same ==> r.value == compiled
    ensures store.planFile == Some(compiled.plan) ==> r.Done? && same
  {
    hide CompiledOk, Graph, Accepted, CompiledBy, Compiled, Distinguishes;
    same := false;
    CompiledPlansRecompile(compiled, from, hash);
    if store.planFile.None? {
      return Thrown(RunNotFound), same;
    }
    var plan := store.planFile.value;
    r := CompileMachinePlan(plan, from, hash);
    if r.Done? {
      ForeignIffAnotherPlan(compiled, plan, from, hash);
      same := r.value.digest == manifest.planDigest;
    }
  }

  /**
    * What a lease that refuses means for a resume: by then the attempt that was under way, in whichever process,
    * has been rolled back and an entry about it made; without one nothing was touched.
    */
  twostate predicate RefusedAfterRecovery(store: RunStateStore, worktree: Worktree, before: Manifest)
    requires old(JournalOk(store))
    reads store, worktree
  {
    if UnderWay(before) then RolledBack(store, worktree, before) && |old(Log(store))| < |Log(store)|
    else Untouched(worktree)
  }

  /** The part of `resume` after the plan has been recognised. The lease is asked for after the recovery. */
  method Continue(x: RunExecution, lease: Exit<()>, block: Ending, handler: Ending) returns (r: Exit<RunEnd>)
    requires x.Live() && x.current == x.compiled && !x.manifest.status.Terminal()
    modifies x.store, x.manifest, x.worktree, x`closing
    ensures r == Done(Overwritten) ==> !JournalOk(x.store)
    ensures r != Done(Overwritten) ==> x.Durable() && After(old(x.Here()), x.Here())
    ensures r.Thrown? && r.fault.LeaseHeld? ==>
              lease == Thrown(r.fault) && RefusedAfterRecovery(x.store, x.worktree, old(x.manifest.Snapshot()))
    ensures !lease.Done? ==> !r.Done? && Tip(x.worktree)
    ensures !lease.Done? && old(x.Flushed()) ==>
              x.Flushed() && Level(NOTHING_LOST, old(x.manifest.Snapshot()), x.manifest.Snapshot())
    ensures old(x.store.cancellationFile) ==> NothingMore(x, old(x.worktree.landings), old(x.worktree.starts))
    ensures TakenUp(old(x.World()), x.World(), old(|x.store.approvalsFile|))
    ensures RejectionsBlock(x.compiled, old(x.World()), x.World())
    ensures r != Done(Overwritten) ==> Gap(x.Here()) <= Gap(old(x.Here())) + 1
  {
    hide Sound, Kept, CompiledOk, JournalOk, View, Log, Worktree.Valid, After, Quiet, Gap;
    hide UnderWay, RolledBack, RejectionsBlock, RunExecution.Flushed, Told;
    var recovered := RecoverInterruptedTask(x);
    GapOnlyShrinks(old(x.Here()), x.Here());
    Blocked(x, old(x.World()));
    var _ :- recovered;
    StaysCancelled(old(x.Here()), x.Here());
    ghost var before := x.Here();
    ApprovalsGrow(old(x.Here()), before);
    r := Execute(x, lease, block, handler);
    TakenUpTransitive(old(x.World()), before.world, x.World(), old(|x.store.approvalsFile|), |before.world.approvals|);
    BlocksSince(x.compiled, old(x.World()), before.world, x.World());
    if r != Done(Overwritten) {
      AfterTransitive(old(x.Here()), before, x.Here());
    }
  }

  /** HEAD is where it was, and no worker was started. */
  twostate predicate Tip(worktree: Worktree)
    reads worktree
  {
    worktree.head == old(worktree.head) && worktree.headCommit == old(worktree.headCommit)
    && worktree.landings == old(worktree.landings) && worktree.starts == old(worktree.starts)
  }

  /**
    * `resume`, by a process that knows nothing but what is on disk. A terminal run is left as it is; a
    * foreign snapshot stops the run without touching the worktree; otherwise the run is recovered, and goes on if
    * the lease is to be had.
    */
  method Resume(ghost compiled: CompiledPlan, store: RunStateStore, worktree: Worktree, workers: set<string>,
                from: string, hash: PlanHash, lease: Exit<()>, block: Ending, handler: Ending) returns (r: Exit<RunEnd>)
    requires Persisted(compiled, store, worktree) && CompiledBy(compiled, hash) && Distinguishes(hash, compiled)
    modifies store, worktree
    ensures r == Done(Overwritten) ==> !JournalOk(store)
    ensures r != Done(Overwritten) ==>
              Persisted(compiled, store, worktree) && After(old(MomentOf(store, worktree)), MomentOf(store, worktree))
    ensures old(View(store)).status.Terminal() ==>
              r != Done(Overwritten) && View(store) == old(View(store)) && Log(store) == old(Log(store))
    ensures old(View(store)).status.Terminal() || Foreign(compiled, old(store.planFile), from, hash) ==>
              Untouched(worktree)
    ensures r.Thrown? && r.fault.LeaseHeld? ==>
              lease == Thrown(r.fault) && RefusedAfterRecovery(store, worktree, old(View(store)))
    ensures !lease.Done? ==> Tip(worktree)
    ensures !lease.Done? && r.Done? ==>
              old(View(store)).status.Terminal() || Foreign(compiled, old(store.planFile), from, hash)
    ensures !lease.Done? && r != Done(Overwritten) ==> Level(store.lost, old(View(store)), View(store))
    ensures old(store.cancellationFile) ==>
              worktree.landings == old(worktree.landings) && worktree.starts == old(worktree.starts)
    ensures TakenUp(old(WorldOf(store, worktree)), WorldOf(store, worktree), old(|store.approvalsFile|))
    ensures RejectionsBlock(compiled, old(WorldOf(store, worktree)), WorldOf(store, worktree))
    ensures r != Done(Overwritten) ==> Gap(MomentOf(store, worktree)) <= Gap(old(MomentOf(store, worktree))) + 1
  {
    hide Sound, Kept, CompiledOk, JournalOk, View, Log, Worktree.Valid, After, CompiledBy, Distinguishes, Foreign, Gap;
    hide UnderWay, RolledBack, RejectionsBlock;
    ghost var start := MomentOf(store, worktree);
    AfterReflexive(start);
    EvenWithItself(store.lost, View(store));
    var loaded := Load(store);
    NothingToBlock(compiled, start.world, WorldOf(store, worktree));
    GapOnlyShrinks(start, MomentOf(store, worktree));
    var manifest :- loaded;
    if manifest.status.Terminal() {
      return Done(Finished);
    }
    r := ResumeLoaded(compiled, store, worktree, manifest, workers, from, hash, lease, block, handler);
  }

  /** The part of `resume` for a run that is not over. */
  method ResumeLoaded(ghost compiled: CompiledPlan, store: RunStateStore, worktree: Worktree, manifest: RunManifest,
                      workers: set<string>, from: string, hash: PlanHash, lease: Exit<()>, block: Ending,
                      handler: Ending) returns (r: Exit<RunEnd>)
    requires Persisted(compiled, store, worktree) && CompiledBy(compiled, hash) && Distinguishes(hash, compiled)
    requires manifest.Snapshot() == View(store) && Current(store, manifest) && !manifest.status.Terminal()
    modifies store, worktree, manifest
    ensures r == Done(Overwritten) ==> !JournalOk(store)
    ensures r != Done(Overwritten) ==>
              Persisted(compiled, store, worktree) && After(old(MomentOf(store, worktree)), MomentOf(store, worktree))
    ensures Foreign(compiled, old(store.planFile), from, hash) ==> Untouched(worktree)
    ensures r.Thrown? && r.fault.LeaseHeld? ==>
              lease == Thrown(r.fault) && RefusedAfterRecovery(store, worktree, old(View(store)))
    ensures !lease.Done? ==> Tip(worktree)
    ensures !lease.Done? && r.Done? ==> Foreign(compiled, old(store.planFile), from, hash)
    ensures !lease.Done? && r != Done(Overwritten) ==> Level(store.lost, old(View(store)), View(store))
    ensures old(store.cancellationFile) ==>
              worktree.landings == old(worktree.landings) && worktree.starts == old(worktree.starts)
    ensures TakenUp(old(WorldOf(store, worktree)), WorldOf(store, worktree), old(|store.approvalsFile|))
    ensures RejectionsBlock(compiled, old(WorldOf(store, worktree)), WorldOf(store, worktree))
    ensures r != Done(Overwritten) ==> Gap(MomentOf(store, worktree)) <= Gap(old(MomentOf(store, worktree))) + 1
  {
    hide Sound, Kept, CompiledOk, JournalOk, View, Log, Worktree.Valid, After, CompiledBy, Distinguishes, Foreign, Gap;
    hide UnderWay, RolledBack, RejectionsBlock;
    ghost var start := MomentOf(store, worktree);
    AfterReflexive(start);
    EvenWithItself(store.lost, View(store));
    NothingToBlock(compiled, start.world, start.world);
    LoadedDigest(compiled, View(store), WorldOf(store, worktree));
    var compilation, same := RecompileSnapshot(compiled, store, manifest, from, hash);
    var current :- compilation;
    var x := new RunExecution(compiled, current, store, manifest, worktree, workers);
    LoadedIsLive(x);
    if same {
      r := Continue(x, lease, block, handler);
    } else {
      r := StopForPlanChange(x, block);
      NothingToBlock(compiled, start.world, WorldOf(store, worktree));
      if r != Done(Overwritten) {
        GapOnlyShrinks(start, MomentOf(store, worktree));
      }
    }
  }

  /**
    * A resume that the lease refuses, between two calls of an executor that works on the run: the executor's memory
    * stays sound, HEAD, landings and starts stay, and nothing is forgotten. But its worktree has been reset if an
    * attempt was under way, and the entry about that refuses its next entry unless a cancellation is on record.
    */
  method ResumeBeside(x: RunExecution, workers: set<string>, from: string, hash: PlanHash, lease: Exit<()>,
                      block: Ending, handler: Ending) returns (r: Exit<RunEnd>)
    requires x.Live() && !lease.Done? && CompiledBy(x.compiled, hash) && Distinguishes(hash, x.compiled)
    modifies x.store, x.worktree
    ensures r == Done(Overwritten) ==> !JournalOk(x.store) && Foreign(x.compiled, old(x.store.planFile), from, hash)
    ensures r != Done(Overwritten) ==> x.Live() && x.Durable() && After(old(x.Here()), x.Here())
    ensures r != Done(Overwritten) && old(x.Flushed()) ==> x.Flushed()
    ensures Tip(x.worktree)
    ensures r.Thrown? && r.fault.LeaseHeld? ==> RefusedAfterRecovery(x.store, x.worktree, old(View(x.store)))
    ensures r.Thrown? && r.fault.LeaseHeld? && old(UnderWay(View(x.store)) && Current(x.store, x.manifest)) ==>
              (Admits(View(x.store), x.store.cancellationFile, x.manifest.Snapshot()) <==> x.store.cancellationFile)
  {
    hide Sound, Kept, CompiledOk, JournalOk, View, Log, Worktree.Valid, After, CompiledBy, Distinguishes, Foreign;
    hide UnderWay, RolledBack, RejectionsBlock, TakenUp, Current, Persisted, Gap;
    ghost var before, memory := x.Here(), x.manifest.Snapshot();
    LiveIsPersisted(x);
    NumberedByLog(x.store);
    if Current(x.store, x.manifest) {
      CurrentNumber(x);
    }
    r := Resume(x.compiled, x.store, x.worktree, workers, from, hash, lease, block, handler);
    if r != Done(Overwritten) {
      PersistedParts(x);
      StaysSoundBeside(x.compiled, before, x.Here(), memory);
      NumberedByLog(x.store);
    }
  }

  lemma LiveIsPersisted(x: RunExecution)
    requires x.Live()
    ensures x.Durable() && Persisted(x.compiled, x.store, x.worktree)
    ensures x.Here() == MomentOf(x.store, x.worktree)
  {
    hide Sound, Kept, CompiledOk, JournalOk, View, Log, Worktree.Valid;
    SoundIsKept(x.compiled, View(x.store), x.manifest.Snapshot(), x.World());
  }

  lemma PersistedParts(x: RunExecution)
    requires Persisted(x.compiled, x.store, x.worktree)
    ensures x.Durable() && x.Here() == MomentOf(x.store, x.worktree)
  {
    hide Kept, CompiledOk, JournalOk, View, Log, Worktree.Valid;
  }

  lemma NumberedByLog(store: RunStateStore)
    requires JournalOk(store)
    ensures View(store).nextSequence == |Log(store)| + 1
  {
  }

  lemma CurrentNumber(x: RunExecution)
    requires JournalOk(x.store) && Current(x.store, x.manifest)
    ensures x.manifest.nextSequence == View(x.store).nextSequence
  {
  }

  lemma StaysSoundBeside(c: CompiledPlan, a: Moment, b: Moment, memory: Manifest)
    requires Sound(c, a.view, memory, a.world) && Kept(c, b.view, b.world) && After(a, b)
    requires Level(b.world.lost, a.view, b.view)
    ensures Sound(c, b.view, memory, b.world)
    ensures Level(a.world.lost, memory, a.view) ==> Level(b.world.lost, memory, b.view)
  {
    hide WorldOk, RunOk, HeldOk, StartsCounted, KeepsAttempts, KeepsCompleted;
    RunOkGrows(c, memory, a.world, b.world);
    RunOkGrows(c, a.view, a.world, b.world);
    LevelFollowsBack(c, b.world.lost, a.view, b.view, b.world);
    FollowsTransitive(b.world.lost, b.view, a.view, memory);
  }

  lemma CheckpointsAreReached(x: RunExecution)
    requires x.Live()
    ensures View(x.store).checkpoints != [] ==> Last(View(x.store).checkpoints).commit <= x.worktree.headCommit
  {
    hide Sound, Kept, CompiledOk, JournalOk, View, Log;
    SoundIsKept(x.compiled, View(x.store), x.manifest.Snapshot(), x.World());
    if View(x.store).checkpoints != [] {
      var _ := LastCheckpointIsHeadIff(x.compiled, View(x.store), x.World());
    }
  }

  /**
    * Killed right after the commit: from wherever a landing may be made with something staged, this leaves HEAD
    * ahead of every persisted checkpoint, and the next process finds it so.
    */
  method DieAfterCommit(x: RunExecution, task: Task, patch: StagedPatch, ghost gate: GateReading)
    requires x.Live() && x.Trying(task) && x.MayLand(task, patch, gate) && x.worktree.index != x.worktree.head
    modifies x.manifest`taskStates, x.worktree`head, x.worktree`headCommit, x.worktree`landings
    ensures x.Durable() && View(x.store) == old(View(x.store)) && Log(x.store) == old(Log(x.store))
    ensures x.worktree.headCommit == old(x.worktree.headCommit) + 1 && x.worktree.head == x.worktree.index
    ensures View(x.store).checkpoints != [] ==> Last(View(x.store).checkpoints).commit < x.worktree.headCommit
  {
    hide Sound, Kept, CompiledOk, JournalOk, View, Log;
    hide TaskOf, LandingOk, AllPassed, GateOpen, Decision, PathSet, Diff, Worktree.Valid;
    CheckpointsAreReached(x);
    x.EvidenceIsEnough(task, patch, gate);
    ghost var evidence := x.Evidence(task, patch, gate);
    x.EnterPhase(task, Checkpointing);
    ghost var w := x.World();
    x.worktree.MoveHead(evidence);
    ghost var landing := evidence.(commit := x.worktree.headCommit);
    x.CommitIsNoEvidence(evidence, landing);
    LandingKeepsSound(x.compiled, View(x.store), x.manifest.Snapshot(), w, landing);
    SoundIsKept(x.compiled, View(x.store), x.manifest.Snapshot(), x.World());
  }

  lemma NothingToBlock(c: CompiledPlan, w: World, v: World)
    requires v.landings == w.landings && v.starts == w.starts
    ensures RejectionsBlock(c, w, v)
  {
  }

  lemma LoadedIsLive(x: RunExecution)
    requires Persisted(x.compiled, x.store, x.worktree)
    requires x.manifest.Snapshot() == View(x.store) && Current(x.store, x.manifest)
    ensures x.Live() && x.Durable() && x.Flushed() && x.Here() == MomentOf(x.store, x.worktree)
  {
    hide Kept, Sound, CompiledOk, JournalOk, View, Log, Worktree.Valid;
    LoadedIsSound(x.compiled, View(x.store), x.World());
  }

  lemma LoadedDigest(c: CompiledPlan, view: Manifest, w: World)
    requires Kept(c, view, w)
    ensures view.planDigest == c.digest
  {
    hide WorldOk, CompiledOk, Tasks, StatusOk;
  }

  // ---- run ----

  lemma FirstDisk(c: CompiledPlan, store: RunStateStore, worktree: Worktree)
    requires CompiledOk(c) && worktree.Valid() && worktree.landings == [] && worktree.starts == []
    requires store.Snapshot() == Disk(Some(Initial(c, store.runId)), [], None) && store.calls == [] &&
             store.lost == NOTHING_LOST
    ensures Persisted(c, store, worktree) && View(store) == Initial(c, store.runId)
    ensures Gap(MomentOf(store, worktree)) == 0
  {
    hide Kept, CompiledOk, Worktree.Valid, RunOk, WorldOk;
    InitialIsOk(c, store.runId, WorldOf(store, worktree));
    InitialIsKept(c, Initial(c, store.runId), WorldOf(store, worktree));
  }

  lemma InitialIsKept(c: CompiledPlan, m: Manifest, w: World)
    requires RunOk(c, m, w) && WorldOk(c, w) && w.starts == [] && w.calls == [] &&
             w.lost == NOTHING_LOST
    ensures Kept(c, m, w)
  {
    hide RunOk, WorldOk;
  }

  lemma InitialIsQuiet(x: RunExecution)
    requires x.manifest.Snapshot() == Initial(x.compiled, x.store.runId) && x.worktree.landings == []
    ensures Quiet(x) && AtRest(x) && !x.manifest.status.Terminal()
  {
  }

  /** The part of `run` after the run directory exists. */
  method Begin(x: RunExecution, lease: Exit<()>, block: Ending, handler: Ending) returns (r: Exit<RunEnd>)
    requires x.Live() && x.current == x.compiled && Quiet(x) && AtRest(x) && !x.manifest.status.Terminal()
    modifies x.store, x.manifest, x.worktree, x`closing
    ensures r == Done(Overwritten) ==> !JournalOk(x.store)
    ensures r != Done(Overwritten) ==> x.Durable()
    ensures r.Done? && r.value != Paused ==> x.manifest.status.Terminal()
    ensures r.Done? && x.manifest.status == RunCompleted ==> |x.manifest.checkpoints| == |x.compiled.taskOrder|
    ensures r.Done? && x.manifest.failure != Some(BROKEN) ==> AtRest(x)
    ensures r != Done(Overwritten) ==> Gap(x.Here()) <= Gap(old(x.Here())) + 1
  {
    hide Sound, Kept, CompiledOk, JournalOk, View, Log, Worktree.Valid, After, Rested, Quiet, Gap;
    var _ :- JournalCreation(x);
    r := Execute(x, lease, block, handler);
  }

  method JournalCreation(x: RunExecution) returns (r: Exit<()>)
    requires x.Live() && Quiet(x)
    modifies x.store, x.manifest`nextSequence
    ensures x.Durable() && (!r.Crashed? ==> x.Live() && Quiet(x))
    ensures Gap(x.Here()) <= Gap(old(x.Here()))
  {
    hide Sound, Kept, CompiledOk, JournalOk, View, Log, Worktree.Valid, After;
    r := x.Journal(EventDraft(RunCreatedEvent, None, None));
    GapOnlyShrinks(old(x.Here()), x.Here());
  }

  /** What `run` is given: a plan, or a plan compiled earlier. */
  datatype RunInput = SourcePlan(plan: Plan) | CompiledInput(compiled: CompiledPlan) {
    function Given(): Plan {
      if SourcePlan? then plan else compiled.plan
    }
  }

  /** A compiled input came out of the compiler. */
  ghost predicate Genuine(input: RunInput, hash: PlanHash) {
    input.CompiledInput? ==> CompiledBy(input.compiled, hash)
  }

  ghost predicate Runnable(input: RunInput) {
    input.SourcePlan? ==> Accepted(input.plan)
  }

  /** The plan a run of the input is a run of. */
  ghost function CompiledOf(input: RunInput, from: string, hash: PlanHash): CompiledPlan {
    match input
    case SourcePlan(plan) => Compiled(plan, from, hash)
    case CompiledInput(compiled) => compiled
  }

  /** `isCompiled(input) ? input : compileMachinePlan(input)`. */
  method CompileInput(input: RunInput, from: string, hash: PlanHash) returns (r: Exit<CompiledPlan>)
    requires Genuine(input, hash)
    ensures r == if Runnable(input) then Done(CompiledOf(input, from, hash)) else Thrown(InvalidPlan)
    ensures r.Done? ==> CompiledOk(r.value)
  {
    hide Accepted, Compiled, CompiledOk, CompiledBy;
    match input {
      case SourcePlan(plan) =>
        r := CompileMachinePlan(plan, from, hash);
        if r.Done? {
          AcceptedPlansCompile(plan, from, hash);
        }
      case CompiledInput(compiled) =>
        CompiledPlansRecompile(compiled, from, hash);
        r := Done(compiled);
    }
  }

  /**
    * `run`: compiles, creates the worktree at the base commit and the run directory, and executes. A run
    * that no crash and no exception interrupted ends with HEAD at its last checkpoint.
    */
  method Run(input: RunInput, from: string, hash: PlanHash, runId: string, base: Tree, workers: set<string>,
             lease: Exit<()>, block: Ending, handler: Ending)
    returns (r: Exit<RunEnd>, store: RunStateStore, worktree: Worktree, manifest: RunManifest, ghost compiled: CompiledPlan)
    requires PlainTree(base) && Genuine(input, hash)
    ensures fresh(store) && fresh(worktree) && fresh(manifest)
    ensures compiled == CompiledOf(input, from, hash) && worktree.base == base
    ensures !Runnable(input) ==> r == Thrown(InvalidPlan) && store.manifestFile.None?
    ensures Runnable(input) && store.manifestFile.Some? && r != Done(Overwritten) ==>
              Persisted(compiled, store, worktree)
    ensures r.Done? && r.value != Paused ==> manifest.status.Terminal()
    ensures r.Done? && manifest.status == RunCompleted ==> |manifest.checkpoints| == |compiled.taskOrder|
    ensures r.Done? && manifest.failure != Some(BROKEN) ==> Rested(manifest.checkpoints, worktree.landings)
    ensures Runnable(input) && store.manifestFile.Some? && r != Done(Overwritten) ==>
              Gap(MomentOf(store, worktree)) <= 1
  {
    hide Sound, Kept, CompiledOk, JournalOk, View, Log;
    hide Worktree.Valid, Runnable, Genuine, CompiledOf, Rested, Quiet, Gap, PlainTree;
    compiled := CompiledOf(input, from, hash);
    store := new RunStateStore(runId);
    worktree := new Worktree(base);
    var compilation := CompileInput(input, from, hash);
    manifest := new RunManifest(Initial(CompiledPlan(input.Given(), "", []), runId));
    if !compilation.Done? {
      return Thrown(InvalidPlan), store, worktree, manifest, compiled;
    }
    var current := compilation.value;
    manifest := new RunManifest(Initial(current, runId));
    var created := store.CreateRun(manifest, current.plan);
    if store.manifestFile.Some? {
      FirstDisk(current, store, worktree);
    }
    if !created.Done? {
      r := created.PropagateFailure();
      return;
    }
    var x := new RunExecution(current, current, store, manifest, worktree, workers);
    FirstIsLive(x);
    InitialIsQuiet(x);
    r := Begin(x, lease, block, handler);
  }

  lemma FirstIsLive(x: RunExecution)
    requires Persisted(x.compiled, x.store, x.worktree)
    requires x.manifest.Snapshot() == View(x.store) && x.manifest.runId == x.store.runId
    ensures x.Live()
  {
    hide Kept, Sound, CompiledOk, JournalOk, View, Log, Worktree.Valid;
    LoadedIsSound(x.compiled, View(x.store), x.World());
  }

  // ---- every history ----

  /** One store call of an operator while no executor holds the run. */
  method Outside(ghost c: CompiledPlan, store: RunStateStore, worktree: Worktree)
    requires Persisted(c, store, worktree)
    modifies store
    ensures Persisted(c, store, worktree) && After(old(MomentOf(store, worktree)), MomentOf(store, worktree))
  {
    hide Kept, CompiledOk, Recoverable, Worktree.Valid, OperatorStep, Advanced;
    ghost var before, w := SharedBy(store), WorldOf(store, worktree);
    PersistedCallsBelong(c, store, worktree);
    OperatorMove(store);
    OperatorStepKeepsKept(c, before, SharedBy(store), w);
  }

  lemma PersistedCallsBelong(c: CompiledPlan, store: RunStateStore, worktree: Worktree)
    requires Persisted(c, store, worktree)
    ensures CallsBelong(store)
  {
    hide WorldOk, RunOk, CompiledOk, Log, Worktree.Valid, View, JournalOk, Advanced;
    ViewIsOurs(store);
  }

  /**
    * Nothing durable was undone; whatever landed or started in between had its gate taken up in between, and once a
    * cancellation is on record nothing lands or starts.
    */
  ghost predicate Leads(a: Moment, b: Moment) {
    && After(a, b) && TakenUp(a.world, b.world, |a.world.approvals|)
    && (a.world.cancelled ==> b.world.landings == a.world.landings && b.world.starts == a.world.starts)
  }

  lemma LeadsTransitive(a: Moment, b: Moment, d: Moment)
    requires Leads(a, b) && Leads(b, d)
    ensures Leads(a, d)
  {
    ApprovalsGrow(a, b);
    AfterTransitive(a, b, d);
    StaysCancelled(a, b);
    TakenUpTransitive(a.world, b.world, d.world, |a.world.approvals|, |b.world.approvals|);
  }

  lemma LeadsToItself(a: Moment)
    ensures Leads(a, a)
  {
    hide After;
    AfterReflexive(a);
  }

  /** Every moment of a history is sound, and every one leads to every later one. */
  ghost predicate Onward(c: CompiledPlan, moments: seq<Moment>) {
    && (forall i :: 0 <= i < |moments| ==> Kept(c, moments[i].view, moments[i].world))
    && (forall i, j :: 0 <= i <= j < |moments| ==> Leads(moments[i], moments[j]))
  }

  lemma OneMoreMoment(c: CompiledPlan, moments: seq<Moment>, next: Moment)
    requires moments != [] && Onward(c, moments) && Leads(Last(moments), next) && Kept(c, next.view, next.world)
    ensures Onward(c, moments + [next])
  {
    hide Leads, Kept;
    var all := moments + [next];
    LeadsToItself(next);
    forall i, j | 0 <= i <= j < |all| ensures Leads(all[i], all[j]) {
      if i < |moments| && j == |moments| {
        LeadsTransitive(moments[i], Last(moments), next);
      }
    }
  }

  /**
    * Over a whole history: if a task's gate read as rejected at one moment and was not approved up to a later
    * one, nothing landed for the task in between, in however many processes, and no worker started if it is the
    * `before` gate.
    */
  lemma RejectionsBlockHistories(c: CompiledPlan, moments: seq<Moment>, i: nat, j: nat)
    requires Onward(c, moments) && i <= j < |moments|
    ensures RejectionsBlock(c, moments[i].world, moments[j].world)
  {
    hide After, WorldOk, RunOk, HeldOk, StartsCounted, RejectionsBlock, TakenUp;
    assert Leads(moments[i], moments[j]) && Kept(c, moments[j].view, moments[j].world);
    RejectedTaskLandsNothing(c, moments[i].world, moments[j].world);
  }

  /**
    * One thing that happens to a run: a store call of an operator, an edit of the plan snapshot, or a resume
    * that may die anywhere. Only a resume is an executor process.
    */
  method HistoryStep(ghost compiled: CompiledPlan, store: RunStateStore, worktree: Worktree, workers: set<string>,
                     from: string, hash: PlanHash)
    returns (overwritten: bool, executed: bool)
    requires Persisted(compiled, store, worktree) && CompiledBy(compiled, hash) && Distinguishes(hash, compiled)
    modifies store, worktree
    ensures overwritten ==> !JournalOk(store)
    ensures !overwritten ==>
              Persisted(compiled, store, worktree) && Leads(old(MomentOf(store, worktree)), MomentOf(store, worktree))
    ensures !overwritten ==>
              Gap(MomentOf(store, worktree)) <= Gap(old(MomentOf(store, worktree))) + (if executed then 1 else 0)
  {
    hide Kept, CompiledOk, JournalOk, View, Log, Worktree.Valid, After, CompiledBy, Distinguishes, Gap;
    ghost var before := MomentOf(store, worktree);
    overwritten, executed := false, false;
    var step: nat := *;
    if step == 0 {
      Outside(compiled, store, worktree);
      GapOnlyShrinks(before, MomentOf(store, worktree));
    } else if step == 1 {
      EditSnapshot(compiled, store, worktree);
      GapOnlyShrinks(before, MomentOf(store, worktree));
    } else {
      var lease: Exit<()>, block: Ending, handler: Ending := *, *, *;
      var ended := Resume(compiled, store, worktree, workers, from, hash, lease, block, handler);
      overwritten, executed := ended == Done(Overwritten), true;
    }
  }

  /**
    * Any history of a run: one `run` that may die anywhere, then any number of resumes that may die
    * anywhere, store calls of operators, and edits of the plan snapshot, in any order. As long as no final save
    * overwrites another process's entry, everything durable stays sound, nothing is undone from any moment to
    * any later one, and at most one landing for each executor process has no persisted checkpoint. `moments` are
    * the states after each step.
    */
  method History(input: RunInput, from: string, hash: PlanHash, runId: string, base: Tree, workers: set<string>)
    returns (store: RunStateStore, worktree: Worktree, ghost compiled: CompiledPlan, overwritten: bool, processes: nat,
             ghost moments: seq<Moment>)
    requires PlainTree(base) && Genuine(input, hash) && forall p, q :: hash(p) == hash(q) ==> p == q
    ensures compiled == CompiledOf(input, from, hash) && worktree.base == base
    ensures !overwritten && store.manifestFile.Some? ==> Persisted(compiled, store, worktree)
    ensures !overwritten && store.manifestFile.Some? ==> Gap(MomentOf(store, worktree)) <= processes
    ensures !overwritten && store.manifestFile.Some? ==> moments != [] && Last(moments) == MomentOf(store, worktree)
    ensures Onward(compiled, moments)
    ensures !overwritten && store.manifestFile.Some? ==> StaysWithin(compiled, base, store, worktree, processes)
  {
    hide Kept, CompiledOk, JournalOk, View, Log, Worktree.Valid;
    hide After, Runnable, Genuine, CompiledOf, Gap, Onward, Leads;
    hide StaysWithin, CompiledBy, Distinguishes;
    var r, manifest;
    var lease: Exit<()>, block: Ending, handler: Ending := *, *, *;
    r, store, worktree, manifest, compiled := Run(input, from, hash, runId, base, workers, lease, block, handler);
    overwritten, processes, moments := r == Done(Overwritten), 1, [];
    NoMoments(compiled);
    CompilesAndDistinguishes(input, from, hash);
    if store.manifestFile.None? || overwritten {
      return;
    }
    moments := [MomentOf(store, worktree)];
    FirstMoment(compiled, MomentOf(store, worktree));
    var steps: nat := *;
    while steps > 0 && !overwritten
      invariant fresh(store) && fresh(worktree)
      invariant Onward(compiled, moments) && moments != []
      invariant !overwritten ==> Persisted(compiled, store, worktree) && Last(moments) == MomentOf(store, worktree)
      invariant !overwritten ==> Gap(MomentOf(store, worktree)) <= processes
    {
      var executed;
      overwritten, executed := HistoryStep(compiled, store, worktree, workers, from, hash);
      if executed {
        processes := processes + 1;
      }
      if !overwritten {
        OneMoreMoment(compiled, moments, MomentOf(store, worktree));
        moments := moments + [MomentOf(store, worktree)];
      }
      steps := steps - 1;
    }
    if !overwritten {
      HistoryStaysWithin(compiled, hash, store, worktree, processes);
    }
  }

  lemma NoMoments(c: CompiledPlan)
    ensures Onward(c, [])
  {
  }

  lemma FirstMoment(c: CompiledPlan, m: Moment)
    requires Kept(c, m.view, m.world)
    ensures Onward(c, [m])
  {
    hide Leads, Kept;
    LeadsToItself(m);
  }

  /**
    * What a history means for the worktree: HEAD differs from the base only as the policy allows, no attempt's
    * worker was started twice, and unless an operator's late copy forgot checkpoints, at most `maxChangedFiles`
    * paths changed for each checkpoint and each executor process.
    */
  ghost predicate StaysWithin(c: CompiledPlan, base: Tree, store: RunStateStore, worktree: Worktree, processes: nat)
    requires JournalOk(store)
    reads store, worktree
  {
    && WithinPolicy(c, base, worktree.head) && StartedOnce(worktree.starts)
    && (!store.lost.checkpoints ==>
          |Diff(base, worktree.head)| <= FileLimit(PolicyOf(c)) * (|View(store).checkpoints| + processes))
  }

  lemma HistoryStaysWithin(c: CompiledPlan, hash: PlanHash, store: RunStateStore, worktree: Worktree, processes: nat)
    requires Persisted(c, store, worktree) && Gap(MomentOf(store, worktree)) <= processes && CompiledBy(c, hash)
    ensures StaysWithin(c, worktree.base, store, worktree, processes)
  {
    hide Kept, CompiledOk, JournalOk, View, Log, WithinPolicy;
    hide Diff, PolicyOf, Chained, Budgets, StartedOnce, CompiledBy;
    var w := WorldOf(store, worktree);
    HeadIsWithinPolicy(c, View(store), w);
    StartsHaveSlots(c, View(store), w);
    LimitIsPositive(c, hash);
    if !store.lost.checkpoints {
      ChangedFilesPerProcess(c, View(store), w, processes);
    }
  }

  /** The compiler accepts no limit below one. */
  lemma LimitIsPositive(c: CompiledPlan, hash: PlanHash)
    requires CompiledBy(c, hash)
    ensures FileLimit(PolicyOf(c)) >= 1
  {
    hide CompiledOk, Graph, TasksAccepted, CompiledBy, Acyclic;
    CompiledPlansRecompile(c, "", hash);
  }

  /** An attempt stays on record through a history, unless an operator's late copy forgot attempts. */
  lemma AttemptsStay(c: CompiledPlan, moments: seq<Moment>, i: nat, j: nat, id: string)
    requires Onward(c, moments) && i <= j < |moments| && !moments[j].world.lost.attempts
    requires id in moments[i].view.taskStates
    ensures id in moments[j].view.taskStates
    ensures |moments[i].view.taskStates[id].attempts| <= |moments[j].view.taskStates[id].attempts|
  {
    hide Kept, Grows;
    assert Leads(moments[i], moments[j]);
  }

  /** Once a cancellation is on record, no later moment of a history has another landing or worker start. */
  lemma CancelledHistoriesStandStill(c: CompiledPlan, moments: seq<Moment>, i: nat, j: nat)
    requires Onward(c, moments) && i <= j < |moments| && moments[i].world.cancelled
    ensures moments[j].world.landings == moments[i].world.landings && moments[j].world.starts == moments[i].world.starts
  {
    hide Kept, After, TakenUp;
    assert Leads(moments[i], moments[j]);
  }

  /** A completed task keeps its whole record through a history, unless an operator's late copy forgot checkpoints. */
  lemma CompletedTasksStay(c: CompiledPlan, moments: seq<Moment>, i: nat, j: nat, id: string)
    requires Onward(c, moments) && i <= j < |moments| && !moments[j].world.lost.checkpoints
    requires id in moments[i].view.taskStates && moments[i].view.taskStates[id].status == TaskCompleted
    ensures id in moments[j].view.taskStates && moments[j].view.taskStates[id] == moments[i].view.taskStates[id]
    ensures moments[i].view.checkpoints <= moments[j].view.checkpoints
  {
    hide Kept, Grows;
    assert Leads(moments[i], moments[j]);
  }

  lemma CompilesAndDistinguishes(input: RunInput, from: string, hash: PlanHash)
    requires Genuine(input, hash) && forall p, q :: hash(p) == hash(q) ==> p == q
    ensures Distinguishes(hash, CompiledOf(input, from, hash))
    ensures Runnable(input) ==> CompiledBy(CompiledOf(input, from, hash), hash)
  {
    hide Accepted, ResolvePath, Graph, CompiledOk;
    if input.CompiledInput? {
      hide CompiledBy;
      CompiledPlansRecompile(input.compiled, from, hash);
    }
  }

  /** Somebody edits, replaces or removes the plan snapshot. */
  method EditSnapshot(ghost c: CompiledPlan, store: RunStateStore, worktree: Worktree)
    requires Persisted(c, store, worktree)
    modifies store`planFile
    ensures Persisted(c, store, worktree) && After(old(MomentOf(store, worktree)), MomentOf(store, worktree))
  {
    hide Kept, CompiledOk, Recoverable, Worktree.Valid, After;
    var snapshot: Option<Plan> := *;
    store.planFile := snapshot;
    AfterReflexive(MomentOf(store, worktree));
  }
}
