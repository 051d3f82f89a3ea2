/** The agent concurrency state machine of packages/core/src/control/concurrency.ts. */
module Concurrency {
  import opened Basics

  datatype ConcurrencyState = Idle | Acquiring | Acquired | Releasing

  datatype WorkQueueEntry = WorkQueueEntry(agentId: string, enqueuedAt: int, timeoutMs: int) {
    predicate TimedOut(now: int) {
      now - enqueuedAt > timeoutMs
    }
  }

  datatype ConcurrencyConfig = ConcurrencyConfig(maxConcurrency: int, defaultTimeoutMs: int)

  datatype Machine = Machine(
    state: ConcurrencyState,
    currentAgentId: Option<string>,
    acquiredCount: int,
    config: ConcurrencyConfig,
    queue: seq<WorkQueueEntry>)

  datatype Transition = Transition(machine: Machine, allowed: bool)

  function Create(config: ConcurrencyConfig): Machine {
    Machine(Idle, None, 0, config, [])
  }

  function RequestAcquisition(m: Machine, agentId: string, timeoutMs: Option<int>, now: int): Transition {
    if m.acquiredCount < m.config.maxConcurrency && m.queue == [] then
      Transition(m.(state := Acquiring, currentAgentId := Some(agentId)), true)
    else
      var entry := WorkQueueEntry(agentId, now, timeoutMs.GetOr(m.config.defaultTimeoutMs));
      Transition(m.(queue := m.queue + [entry]), false)
  }

  function ConfirmAcquisition(m: Machine, agentId: string): Transition {
    if m.state != Acquiring || m.currentAgentId != Some(agentId) then Transition(m, false)
    else Transition(m.(state := Acquired, acquiredCount := m.acquiredCount + 1), true)
  }

  function RequestRelease(m: Machine, agentId: string): Transition {
    if m.state != Acquired || m.currentAgentId != Some(agentId) then Transition(m, false)
    else Transition(m.(state := Releasing), true)
  }

  function CompleteRelease(m: Machine): Transition {
    if m.state != Releasing then Transition(m, false)
    else
      var newCount := if m.acquiredCount - 1 < 0 then 0 else m.acquiredCount - 1;
      if m.queue != [] then
        Transition(m.(state := Acquiring, currentAgentId := Some(m.queue[0].agentId), acquiredCount := newCount,
                      queue := m.queue[1..]), true)
      else
        Transition(m.(state := Idle, currentAgentId := None, acquiredCount := newCount), true)
  }

  // ---- deadlocks ----

  function TimedOutAgents(queue: seq<WorkQueueEntry>, now: int): seq<string> {
    if queue == [] then []
    else
      var last := queue[|queue| - 1];
      TimedOutAgents(queue[..|queue| - 1], now) + (if last.TimedOut(now) then [last.agentId] else [])
  }

  ghost predicate Waits(queue: seq<WorkQueueEntry>, now: int, agentId: string) {
    exists i :: 0 <= i < |queue| && queue[i].TimedOut(now) && queue[i].agentId == agentId
  }

  /** Exactly the agents with a timed-out entry. */
  lemma {:induction false} TimedOutMeans(queue: seq<WorkQueueEntry>, now: int, agentId: string)
    ensures agentId in TimedOutAgents(queue, now) <==> Waits(queue, now, agentId)
  {
    if queue != [] {
      var front, last := queue[..|queue| - 1], queue[|queue| - 1];
      hide Waits;
      TimedOutMeans(front, now, agentId);
      OneMoreWaits(front, last, now, agentId);
      assert queue == front + [last];
    } else {
      NobodyWaits(now, agentId);
    }
  }

  method CheckDeadlocks(m: Machine, now: int) returns (hasDeadlock: bool, deadlockedIds: seq<string>)
    ensures deadlockedIds == TimedOutAgents(m.queue, now)
    ensures hasDeadlock <==> exists i :: 0 <= i < |m.queue| && m.queue[i].TimedOut(now)
  {
    deadlockedIds := [];
    for index := 0 to |m.queue|
      invariant deadlockedIds == TimedOutAgents(m.queue[..index], now)
      invariant deadlockedIds != [] <==> exists i :: 0 <= i < index && m.queue[i].TimedOut(now)
    {
      assert m.queue[..index + 1][..index] == m.queue[..index];
      if now - m.queue[index].enqueuedAt > m.queue[index].timeoutMs {
        deadlockedIds := deadlockedIds + [m.queue[index].agentId];
      }
    }
    assert m.queue[..|m.queue|] == m.queue;
    hasDeadlock := |deadlockedIds| > 0;
  }

  function Without(queue: seq<WorkQueueEntry>, agents: seq<string>): seq<WorkQueueEntry> {
    if queue == [] then []
    else
      var last := queue[|queue| - 1];
      Without(queue[..|queue| - 1], agents) + (if last.agentId in agents then [] else [last])
  }

  /** Drops every entry of an agent that has a timed-out entry. */
  function RemoveDeadlocked(m: Machine, now: int): Machine {
    var agents := TimedOutAgents(m.queue, now);
    if agents == [] then m else m.(queue := Without(m.queue, agents))
  }

  // ---- runs ----

  datatype Call =
    | Request(agentId: string, timeoutMs: Option<int>)
    | Confirm(agentId: string)
    | AskRelease(agentId: string)
    | Complete
    | Remove
    | Reset

  /**
    * A machine with the record of what happened since the last reset: the agents that asked, those the machine made
    * its acquiring agent, those whose confirmation it took, those that began to release, the completed releases, and
    * how many entries were removed as deadlocked. What the machine did is read off the machine after the step.
    */
  datatype Run = Run(
    machine: Machine, arrived: seq<string>, granted: seq<string>, acquired: seq<string>, released: seq<string>,
    completed: nat, removed: int)

  function Start(config: ConcurrencyConfig): Run {
    Run(Create(config), [], [], [], [], 0, 0)
  }

  /** The acquiring agent, if there is one. */
  function Acquirer(m: Machine): seq<string> {
    if m.state == Acquiring && m.currentAgentId.Some? then [m.currentAgentId.value] else []
  }

  function Step(r: Run, call: Call, now: int): Run {
    var m := r.machine;
    match call
    case Request(agentId, timeoutMs) =>
      var t := RequestAcquisition(m, agentId, timeoutMs, now);
      r.(machine := t.machine, arrived := r.arrived + [agentId],
         granted := if t.allowed then r.granted + Acquirer(t.machine) else r.granted)
    case Confirm(agentId) =>
      var t := ConfirmAcquisition(m, agentId);
      r.(machine := t.machine, acquired := if t.allowed then r.acquired + [agentId] else r.acquired)
    case AskRelease(agentId) =>
      var t := RequestRelease(m, agentId);
      r.(machine := t.machine, released := if t.allowed then r.released + [agentId] else r.released)
    case Complete =>
      var t := CompleteRelease(m);
      if t.allowed then
        r.(machine := t.machine, completed := r.completed + 1, granted := r.granted + Acquirer(t.machine))
      else r.(machine := t.machine)
    case Remove =>
      var next := RemoveDeadlocked(m, now);
      r.(machine := next, removed := r.removed + |m.queue| - |next.queue|)
    case Reset => Start(m.config)
  }

  function After(r: Run, calls: seq<(Call, int)>): Run
    decreases |calls|
  {
    if calls == [] then r else After(Step(r, calls[0].0, calls[0].1), calls[1..])
  }

  /** Elements of `xs` found in `ys` in the same order. */
  predicate Subsequence(xs: seq<string>, ys: seq<string>) {
    if ys == [] then xs == []
    else
      || Subsequence(xs, ys[..|ys| - 1])
      || (xs != [] && xs[|xs| - 1] == ys[|ys| - 1] && Subsequence(xs[..|xs| - 1], ys[..|ys| - 1]))
  }

  function Agents(queue: seq<WorkQueueEntry>): seq<string> {
    if queue == [] then [] else Agents(queue[..|queue| - 1]) + [queue[|queue| - 1].agentId]
  }

  /**
    * First come, first served: the agents made acquiring, followed by those that wait, are in the order in which they
    * asked, and nobody is lost but by removal; those that acquire are in the order in which they were made acquiring,
    * and those that release in the order in which they acquired.
    */
  ghost predicate InOrder(r: Run) {
    var m := r.machine;
    && Subsequence(r.granted + Agents(m.queue), r.arrived)
    && |r.arrived| == |r.granted| + |m.queue| + r.removed
    && (m.state == Acquiring ==>
          && r.granted != [] && m.currentAgentId == Some(r.granted[|r.granted| - 1])
          && Subsequence(r.acquired, r.granted[..|r.granted| - 1]))
    && (m.state == Acquired ==>
          && r.acquired != [] && m.currentAgentId == Some(r.acquired[|r.acquired| - 1])
          && Subsequence(r.released, r.acquired[..|r.acquired| - 1]))
    && Subsequence(r.acquired, r.granted) && Subsequence(r.released, r.acquired)
  }

  ghost predicate Counted(r: Run) {
    var m := r.machine;
    && 0 <= m.acquiredCount && (m.acquiredCount <= m.config.maxConcurrency || m.acquiredCount == 0)
    && (m.state == Acquiring ==> m.acquiredCount < m.config.maxConcurrency)
    && (m.state == Acquired || m.state == Releasing ==> m.acquiredCount >= 1)
    && m.acquiredCount == |r.acquired| - r.completed
    && (m.config.maxConcurrency == 1 && m.state == Idle ==> m.acquiredCount == 0)
  }

  ghost predicate Good(r: Run) {
    Counted(r) && InOrder(r)
  }

  lemma PrefixStays(xs: seq<string>, ys: seq<string>, e: string)
    requires Subsequence(xs, ys)
    ensures Subsequence(xs + [e], ys + [e]) && Subsequence(xs, ys + [e])
  {
    assert (ys + [e])[..|ys|] == ys && (xs + [e])[..|xs|] == xs;
  }

  lemma {:induction false} SubsequenceIsTransitive(xs: seq<string>, ys: seq<string>, zs: seq<string>)
    requires Subsequence(xs, ys) && Subsequence(ys, zs)
    ensures Subsequence(xs, zs)
    decreases |zs|
  {
    if zs != [] {
      var front := zs[..|zs| - 1];
      if Subsequence(ys, front) {
        SubsequenceIsTransitive(xs, ys, front);
      } else if Subsequence(xs, ys[..|ys| - 1]) {
        SubsequenceIsTransitive(xs, ys[..|ys| - 1], front);
      } else {
        SubsequenceIsTransitive(xs[..|xs| - 1], ys[..|ys| - 1], front);
      }
    }
  }

  lemma {:induction false} Reflexive(xs: seq<string>)
    ensures Subsequence(xs, xs)
  {
    if xs != [] {
      Reflexive(xs[..|xs| - 1]);
    }
  }

  lemma {:induction false} RemovingKeepsOrder(before: seq<string>, queue: seq<WorkQueueEntry>, agents: seq<string>)
    ensures Subsequence(before + Agents(Without(queue, agents)), before + Agents(queue))
    decreases |queue|
  {
    if queue == [] {
      Reflexive(before);
      assert before + Agents(Without(queue, agents)) == before && before + Agents(queue) == before;
    } else {
      hide Subsequence;
      var front, last := queue[..|queue| - 1], queue[|queue| - 1];
      RemovingKeepsOrder(before, front, agents);
      var kept, all := before + Agents(Without(front, agents)), before + Agents(front);
      PrefixStays(kept, all, last.agentId);
      assert before + Agents(queue) == all + [last.agentId];
      if last.agentId in agents {
        assert Without(queue, agents) == Without(front, agents);
      } else {
        assert Without(queue, agents)[..|Without(queue, agents)| - 1] == Without(front, agents);
        assert before + Agents(Without(queue, agents)) == kept + [last.agentId];
      }
    }
  }

  /** Exactly the entries of agents without a timed-out entry stay. */
  lemma {:induction false} WithoutMeans(queue: seq<WorkQueueEntry>, agents: seq<string>, e: WorkQueueEntry)
    ensures e in Without(queue, agents) <==> e in queue && e.agentId !in agents
  {
    if queue != [] {
      var front, last := queue[..|queue| - 1], queue[|queue| - 1];
      WithoutMeans(front, agents, e);
      assert e in queue <==> e in front || e == last;
    }
  }

  /** Removing takes away exactly the entries of the agents that have a timed-out one, and changes nothing else. */
  lemma RemovingMeans(m: Machine, now: int, e: WorkQueueEntry)
    ensures var next := RemoveDeadlocked(m, now);
            && (e in next.queue <==> e in m.queue && !Waits(m.queue, now, e.agentId))
            && next.(queue := m.queue) == m
  {
    var agents := TimedOutAgents(m.queue, now);
    WithoutMeans(m.queue, agents, e);
    TimedOutMeans(m.queue, now, e.agentId);
  }

  /** A request that has to wait times out when its own time is over, or the default one if it has none. */
  lemma WaitsAsAsked(m: Machine, agentId: string, timeoutMs: Option<int>, now: int, later: int)
    requires !RequestAcquisition(m, agentId, timeoutMs, now).allowed && !Waits(m.queue, later, agentId)
    ensures Waits(RequestAcquisition(m, agentId, timeoutMs, now).machine.queue, later, agentId) <==>
            later - now > (if timeoutMs.Some? then timeoutMs.value else m.config.defaultTimeoutMs)
  {
    var queue := RequestAcquisition(m, agentId, timeoutMs, now).machine.queue;
    OneMoreWaits(m.queue, queue[|m.queue|], later, agentId);
  }

  lemma NobodyWaits(now: int, agentId: string)
    ensures !Waits([], now, agentId)
  {
  }

  lemma OneMoreWaits(queue: seq<WorkQueueEntry>, e: WorkQueueEntry, now: int, agentId: string)
    ensures Waits(queue + [e], now, agentId) <==> Waits(queue, now, agentId) || (e.TimedOut(now) && e.agentId == agentId)
  {
    var all := queue + [e];
    assert all[|queue|] == e && forall i :: 0 <= i < |queue| ==> all[i] == queue[i];
  }

  /** After a completed release with agents waiting, the head of the queue and nobody else may confirm. */
  lemma HeadIsPromoted(m: Machine, agentId: string)
    requires m.state == Releasing && m.queue != []
    ensures var t := CompleteRelease(m);
            && t.allowed && t.machine.queue == m.queue[1..]
            && (ConfirmAcquisition(t.machine, agentId).allowed <==> agentId == m.queue[0].agentId)
  {
  }

  lemma StepKeepsCounts(r: Run, call: Call, now: int)
    requires Counted(r)
    ensures Counted(Step(r, call, now)) && Step(r, call, now).machine.config == r.machine.config
  {
    hide TimedOutAgents, Without;
  }

  lemma {:induction false} AgentsHead(queue: seq<WorkQueueEntry>)
    requires queue != []
    ensures Agents(queue) == [queue[0].agentId] + Agents(queue[1..])
  {
    if |queue| > 1 {
      AgentsHead(queue[..|queue| - 1]);
      assert queue[..|queue| - 1][1..] == queue[1..][..|queue[1..]| - 1];
    }
  }

  lemma AgentsTail(queue: seq<WorkQueueEntry>, e: WorkQueueEntry)
    ensures Agents(queue + [e]) == Agents(queue) + [e.agentId]
  {
    assert (queue + [e])[..|queue|] == queue;
  }

  lemma NothingIsOrdered()
    ensures Subsequence([], []) && Agents([]) == []
  {
  }

  lemma RequestKeepsOrder(r: Run, agentId: string, timeoutMs: Option<int>, now: int)
    requires InOrder(r)
    ensures InOrder(Step(r, Request(agentId, timeoutMs), now))
  {
    hide Subsequence, Agents;
    var m, next := r.machine, Step(r, Request(agentId, timeoutMs), now);
    NothingIsOrdered();
    PrefixStays(r.granted + Agents(m.queue), r.arrived, agentId);
    if next.machine.queue == m.queue {
      assert next.granted + Agents(next.machine.queue) == r.granted + Agents(m.queue) + [agentId];
      PrefixStays(r.acquired, r.granted, agentId);
      assert next.granted[..|next.granted| - 1] == r.granted;
    } else {
      AgentsTail(m.queue, next.machine.queue[|m.queue|]);
      assert next.granted + Agents(next.machine.queue) == r.granted + Agents(m.queue) + [agentId];
    }
  }

  lemma ConfirmKeepsOrder(r: Run, agentId: string, now: int)
    requires InOrder(r)
    ensures InOrder(Step(r, Confirm(agentId), now))
  {
    hide Subsequence, Agents;
    var m, next := r.machine, Step(r, Confirm(agentId), now);
    if next.acquired != r.acquired {
      var front := r.granted[..|r.granted| - 1];
      PrefixStays(r.acquired, front, agentId);
      PrefixStays(r.released, r.acquired, agentId);
      assert front + [agentId] == r.granted && next.acquired[..|r.acquired|] == r.acquired;
    }
  }

  lemma AskKeepsOrder(r: Run, agentId: string, now: int)
    requires InOrder(r)
    ensures InOrder(Step(r, AskRelease(agentId), now))
  {
    hide Subsequence, Agents;
    var next := Step(r, AskRelease(agentId), now);
    if next.released != r.released {
      var front := r.acquired[..|r.acquired| - 1];
      PrefixStays(r.released, front, agentId);
      assert front + [agentId] == r.acquired;
    }
  }

  lemma CompleteKeepsOrder(r: Run, now: int)
    requires InOrder(r)
    ensures InOrder(Step(r, Complete, now))
  {
    hide Subsequence, Agents;
    var m, next := r.machine, Step(r, Complete, now);
    assert r.granted + [] == r.granted;
    if m.state == Releasing && m.queue != [] {
      AgentsHead(m.queue);
      assert next.granted + Agents(next.machine.queue) == r.granted + Agents(m.queue);
      PrefixStays(r.acquired, r.granted, m.queue[0].agentId);
      assert next.granted[..|next.granted| - 1] == r.granted;
    }
  }

  lemma RemoveKeepsOrder(r: Run, now: int)
    requires InOrder(r)
    ensures InOrder(Step(r, Remove, now))
  {
    hide Subsequence, Agents, TimedOutAgents, Without;
    var agents := TimedOutAgents(r.machine.queue, now);
    if agents != [] {
      RemovingKeepsOrder(r.granted, r.machine.queue, agents);
      SubsequenceIsTransitive(r.granted + Agents(Without(r.machine.queue, agents)), r.granted + Agents(r.machine.queue),
                              r.arrived);
    }
  }

  lemma StepKeepsGood(r: Run, call: Call, now: int)
    requires Good(r)
    ensures Good(Step(r, call, now))
  {
    hide Subsequence, Agents, InOrder, Counted, Step;
    StepKeepsCounts(r, call, now);
    match call
    case Request(agentId, timeoutMs) => RequestKeepsOrder(r, agentId, timeoutMs, now);
    case Confirm(agentId) => ConfirmKeepsOrder(r, agentId, now);
    case AskRelease(agentId) => AskKeepsOrder(r, agentId, now);
    case Complete => CompleteKeepsOrder(r, now);
    case Remove => RemoveKeepsOrder(r, now);
    case Reset => StartIsGood(r, now);
  }

  lemma StartIsGood(r: Run, now: int)
    ensures InOrder(Step(r, Reset, now)) && Good(Start(r.machine.config))
  {
    NothingIsOrdered();
    assert [] + Agents([]) == [];
  }

  /**
    * Every run: slots never exceed the limit, acquiring means a slot is free, the count is confirmations
    * minus completed releases since the last reset (so the clamp at zero never acts), and everybody is served in the
    * order of asking.
    */
  lemma {:induction false} EveryRunIsGood(r: Run, calls: seq<(Call, int)>)
    requires Good(r)
    ensures Good(After(r, calls))
    decreases |calls|
  {
    if calls != [] {
      StepKeepsGood(r, calls[0].0, calls[0].1);
      EveryRunIsGood(Step(r, calls[0].0, calls[0].1), calls[1..]);
    }
  }

  lemma RunsFromStartAreGood(config: ConcurrencyConfig, calls: seq<(Call, int)>)
    ensures Good(After(Start(config), calls))
    ensures var r := After(Start(config), calls); Subsequence(r.acquired, r.arrived)
  {
    hide Counted;
    StartIsGood(Start(config), 0);
    EveryRunIsGood(Start(config), calls);
    var r := After(Start(config), calls);
    FrontIsOrdered(r.granted, Agents(r.machine.queue));
    SubsequenceIsTransitive(r.acquired, r.granted, r.granted + Agents(r.machine.queue));
    SubsequenceIsTransitive(r.acquired, r.granted + Agents(r.machine.queue), r.arrived);
  }

  lemma {:induction false} FrontIsOrdered(xs: seq<string>, more: seq<string>)
    ensures Subsequence(xs, xs + more)
    decreases |more|
  {
    if more == [] {
      Reflexive(xs);
      assert xs + more == xs;
    } else {
      var n := |more| - 1;
      FrontIsOrdered(xs, more[..n]);
      PrefixStays(xs, xs + more[..n], more[n]);
      assert xs + more == xs + more[..n] + [more[n]];
    }
  }

  // ---- the slot that leaks ----

  const LEAK := [
    (Request("a", None), 0), (Confirm("a"), 0), (Request("b", None), 0), (Confirm("b"), 0), (AskRelease("b"), 0),
    (Complete, 0)]

  lemma LeakRun(config: ConcurrencyConfig)
    requires config.maxConcurrency >= 2
    ensures After(Start(config), LEAK).machine == Machine(Idle, None, 1, config, [])
  {
    var r0 := Start(config);
    var r1 := Step(r0, Request("a", None), 0);
    var r2 := Step(r1, Confirm("a"), 0);
    var r3 := Step(r2, Request("b", None), 0);
    var r4 := Step(r3, Confirm("b"), 0);
    var r5 := Step(r4, AskRelease("b"), 0);
    var r6 := Step(r5, Complete, 0);
    assert After(r5, LEAK[5..]) == r6 by { assert LEAK[5..] == [(Complete, 0)] && LEAK[5..][1..] == []; }
    assert After(r4, LEAK[4..]) == r6 by { assert LEAK[4..][1..] == LEAK[5..]; }
    assert After(r3, LEAK[3..]) == r6 by { assert LEAK[3..][1..] == LEAK[4..]; }
    assert After(r2, LEAK[2..]) == r6 by { assert LEAK[2..][1..] == LEAK[3..]; }
    assert After(r1, LEAK[1..]) == r6 by { assert LEAK[1..][1..] == LEAK[2..]; }
  }

  /** No agent holds a slot in state IDLE, in every run, exactly when at most one slot exists. */
  lemma IdleMeansFreeIffOneSlot(config: ConcurrencyConfig)
    ensures config.maxConcurrency <= 1 <==>
            forall calls ::
              After(Start(config), calls).machine.state == Idle ==> After(Start(config), calls).machine.acquiredCount == 0
  {
    if config.maxConcurrency <= 1 {
      forall calls | After(Start(config), calls).machine.state == Idle
        ensures After(Start(config), calls).machine.acquiredCount == 0
      {
        RunsFromStartAreGood(config, calls);
        ConfigStays(Start(config), calls);
      }
    } else {
      LeakRun(config);
    }
  }

  lemma {:induction false} ConfigStays(r: Run, calls: seq<(Call, int)>)
    ensures After(r, calls).machine.config == r.machine.config
    decreases |calls|
  {
    if calls != [] {
      ConfigStays(Step(r, calls[0].0, calls[0].1), calls[1..]);
    }
  }
}
