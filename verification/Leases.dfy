/**
  * The run lease of packages/agent-runtime/src/engine/state.ts. Every call reads the clock once and is
  * atomic; an owner that dies simply makes no further call.
  */
module Leases {
  import opened Basics

  datatype RunLease = RunLease(owner: string, acquiredAt: int, expiresAt: int) {
    predicate LiveAt(now: int) {
      expiresAt > now
    }
  }

  // ---- the calls on the lease file ----

  function Acquired(file: Option<RunLease>, owner: string, ttlMs: int, now: int): Exit<RunLease> {
    if file.Some? && file.value.LiveAt(now) && file.value.owner != owner then Thrown(LeaseHeld(file.value.owner))
    else Done(RunLease(owner, now, now + ttlMs))
  }

  /** A missing file fails to parse; an expired lease that nobody took over may be renewed. */
  function Renewed(file: Option<RunLease>, lease: RunLease, ttlMs: int, now: int): Exit<RunLease> {
    if file.None? then Thrown(RunNotFound)
    else if file.value.owner != lease.owner then Thrown(LeaseLost(file.value.owner))
    else Done(file.value.(expiresAt := now + ttlMs))
  }

  function Released(file: Option<RunLease>, lease: RunLease): Option<RunLease> {
    if file.Some? && file.value.owner == lease.owner then None else file
  }

  class LeaseStore {
    var leaseFile: Option<RunLease>

    constructor ()
      ensures leaseFile == None
    {
      leaseFile := None;
    }

    method AcquireLease(owner: string, ttlMs: int, now: int) returns (r: Exit<RunLease>)
      modifies this
      ensures r == Acquired(old(leaseFile), owner, ttlMs, now)
      ensures leaseFile == if r.Done? then Some(r.value) else old(leaseFile)
    {
      if leaseFile.Some? {
        var existing := leaseFile.value;
        if existing.expiresAt > now && existing.owner != owner {
          return Thrown(LeaseHeld(existing.owner));
        }
        leaseFile := None;
      }
      var lease := RunLease(owner, now, now + ttlMs);
      leaseFile := Some(lease);
      r := Done(lease);
    }

    method RenewLease(lease: RunLease, ttlMs: int, now: int) returns (r: Exit<RunLease>)
      modifies this
      ensures r == Renewed(old(leaseFile), lease, ttlMs, now)
      ensures leaseFile == if r.Done? then Some(r.value) else old(leaseFile)
    {
      if leaseFile.None? {
        return Thrown(RunNotFound);
      }
      var current := leaseFile.value;
      if current.owner != lease.owner {
        return Thrown(LeaseLost(current.owner));
      }
      var renewed := current.(expiresAt := now + ttlMs);
      leaseFile := Some(renewed);
      r := Done(renewed);
    }

    method ReleaseLease(lease: RunLease)
      modifies this
      ensures leaseFile == Released(old(leaseFile), lease)
    {
      if leaseFile.None? {
        return;
      }
      var current := leaseFile.value;
      if current.owner == lease.owner {
        leaseFile := None;
      }
    }
  }

  // ---- all owners together ----

  datatype LeaseCall = Acquire(owner: string, ttlMs: int) | Renew(owner: string, ttlMs: int) | Release(owner: string)

  datatype Timed = Timed(now: int, call: LeaseCall)

  /** The file, and for each owner the lease its last successful call returned, until it releases it. */
  datatype Holders = Holders(file: Option<RunLease>, held: map<string, RunLease>)

  function Step(h: Holders, t: Timed): Holders {
    match t.call
    case Acquire(owner, ttlMs) =>
      var result := Acquired(h.file, owner, ttlMs, t.now);
      if result.Done? then Holders(Some(result.value), h.held[owner := result.value]) else h
    case Renew(owner, ttlMs) =>
      if owner !in h.held then h
      else
        var result := Renewed(h.file, h.held[owner], ttlMs, t.now);
        if result.Done? then Holders(Some(result.value), h.held[owner := result.value]) else h
    case Release(owner) =>
      if owner !in h.held then h else Holders(Released(h.file, h.held[owner]), h.held - {owner})
  }

  function After(h: Holders, calls: seq<Timed>): Holders
    decreases |calls|
  {
    if calls == [] then h else After(Step(h, calls[0]), calls[1..])
  }

  /** The clock never runs backwards, and has reached `start`. */
  ghost predicate Ordered(start: int, calls: seq<Timed>) {
    && (forall i :: 0 <= i < |calls| ==> start <= calls[i].now)
    && (forall i, j :: 0 <= i < j < |calls| ==> calls[i].now <= calls[j].now)
  }

  /** Every lease names its owner, and an unexpired one is the file's. */
  ghost predicate Exclusive(h: Holders, now: int) {
    && (forall owner :: owner in h.held ==> h.held[owner].owner == owner)
    && (forall owner :: owner in h.held && h.held[owner].LiveAt(now) ==> h.file == Some(h.held[owner]))
  }

  lemma StepKeepsExclusive(h: Holders, t: Timed, now: int)
    requires Exclusive(h, now) && now <= t.now
    ensures Exclusive(Step(h, t), t.now)
  {
  }

  /**
    * Lease safety over every run of calls, by any owners with any time-to-live: whenever two owners both
    * believe they hold an unexpired lease, they are the same owner, and theirs is the lease in the file.
    */
  lemma {:induction false} NoTwoOwnersHold(h: Holders, start: int, calls: seq<Timed>, now: int, a: string, b: string)
    requires Exclusive(h, start) && Ordered(start, calls)
    requires start <= now && forall i :: 0 <= i < |calls| ==> calls[i].now <= now
    ensures Exclusive(After(h, calls), now)
    ensures var held := After(h, calls).held;
            a in held && b in held && held[a].LiveAt(now) && held[b].LiveAt(now) ==>
              a == b && After(h, calls).file == Some(held[a])
    decreases |calls|
  {
    if calls != [] {
      StepKeepsExclusive(h, calls[0], start);
      NoTwoOwnersHold(Step(h, calls[0]), calls[0].now, calls[1..], now, a, b);
    }
  }

  /** Once another owner's lease is in the file, the displaced owner can neither renew nor remove it. */
  lemma DisplacedOwnerIsPowerless(h: Holders, now: int, owner: string, call: LeaseCall)
    requires Exclusive(h, now) && owner in h.held
    requires h.file.Some? && h.file.value.owner != owner
    requires call.owner == owner && !call.Acquire?
    ensures Step(h, Timed(now, call)).file == h.file
    ensures call.Renew? ==> Renewed(h.file, h.held[owner], call.ttlMs, now) == Thrown(LeaseLost(h.file.value.owner))
    ensures !h.held[owner].LiveAt(now)
  {
  }

  /**
    * The calls of an owner whose lease runs out at `expiresAt`, among those of others: no call comes later than that
    * before the owner renews, and each renewal has the lease run on from its own moment. The owner releases nothing.
    */
  predicate KeepsRenewing(owner: string, expiresAt: int, calls: seq<Timed>)
    decreases |calls|
  {
    calls == []
    || var first := calls[0];
       && first.now < expiresAt
       && (if first.call.owner == owner then
             first.call.Renew? && KeepsRenewing(owner, first.now + first.call.ttlMs, calls[1..])
           else KeepsRenewing(owner, expiresAt, calls[1..]))
  }

  /** An owner who renews before its lease runs out is never displaced, whatever the others do. */
  lemma {:induction false} RenewingOwnersKeepTheLease(h: Holders, owner: string, expiresAt: int, start: int,
                                                      calls: seq<Timed>)
    requires Exclusive(h, start) && Ordered(start, calls) && KeepsRenewing(owner, expiresAt, calls)
    requires owner in h.held && h.file == Some(h.held[owner]) && h.held[owner].expiresAt == expiresAt
    ensures var end := After(h, calls); owner in end.held && end.file == Some(end.held[owner])
    ensures forall i :: 0 <= i < |calls| && calls[i].call.owner != owner && calls[i].call.Acquire? ==>
              Acquired(After(h, calls[..i]).file, calls[i].call.owner, calls[i].call.ttlMs, calls[i].now) ==
              Thrown(LeaseHeld(owner))
    decreases |calls|
  {
    if calls != [] {
      var first, next := calls[0], Step(h, calls[0]);
      StepKeepsExclusive(h, first, start);
      RenewingOwnersKeepTheLease(next, owner, next.held[owner].expiresAt, first.now, calls[1..]);
      forall i | 0 < i < |calls| ensures After(h, calls[..i]) == After(next, calls[1..][..i - 1]) {
        assert calls[..i][0] == first && calls[..i][1..] == calls[1..][..i - 1];
      }
      assert After(h, calls[..0]) == h;
      assert forall i :: 0 < i < |calls| ==> calls[i] == calls[1..][i - 1];
    }
  }

  const NOBODY := Holders(None, map[])

  /** The clock's readings so far: they never run backwards, and none is after `last`. */
  ghost predicate ReadUpTo(calls: seq<Timed>, last: int) {
    && (forall i :: 0 <= i < |calls| ==> calls[i].now <= last)
    && (forall i, j :: 0 <= i < j < |calls| ==> calls[i].now <= calls[j].now)
  }

  /** Of two owners that both hold an unexpired lease, each is the other. */
  ghost predicate OneHolder(h: Holders, now: int) {
    forall a, b :: a in h.held && b in h.held && h.held[a].LiveAt(now) && h.held[b].LiveAt(now) ==> a == b
  }

  /**
    * The clock matters, and this is how: after every run of calls with readings up to `last`, at most one owner
    * holds an unexpired lease at `now`, exactly if the clock has not stepped back.
    */
  lemma ExclusiveIffClockForward(last: int, now: int)
    ensures (forall calls :: ReadUpTo(calls, last) ==> OneHolder(After(NOBODY, calls), now)) <==> now >= last
  {
    if now >= last {
      forall calls | ReadUpTo(calls, last) ensures OneHolder(After(NOBODY, calls), now) {
        ForwardIsExclusive(calls, last, now);
      }
    } else {
      var calls := TakenOver(last);
      SteppedBackClockBreaksExclusion(last, now);
      assert ReadUpTo(calls, last) && !OneHolder(After(NOBODY, calls), now);
    }
  }

  lemma ForwardIsExclusive(calls: seq<Timed>, last: int, now: int)
    requires ReadUpTo(calls, last) && now >= last
    ensures OneHolder(After(NOBODY, calls), now)
  {
    var start := if calls == [] then now else calls[0].now;
    forall a, b | a in After(NOBODY, calls).held && b in After(NOBODY, calls).held
      ensures After(NOBODY, calls).held[a].LiveAt(now) && After(NOBODY, calls).held[b].LiveAt(now) ==> a == b
    {
      NoTwoOwnersHold(NOBODY, start, calls, now, a, b);
    }
  }

  /** One owner's lease runs out at `last`, and another owner takes over right then. */
  function TakenOver(last: int): seq<Timed> {
    [Timed(last - 10, Acquire("first", 10)), Timed(last, Acquire("second", 10))]
  }

  /** At any moment before the last reading, the owner whose lease was taken over holds an unexpired lease again. */
  lemma SteppedBackClockBreaksExclusion(last: int, now: int)
    requires now < last
    ensures var held := After(NOBODY, TakenOver(last)).held;
            "first" in held && "second" in held && held["first"].LiveAt(now) && held["second"].LiveAt(now)
  {
    var calls := TakenOver(last);
    var lease := RunLease("first", last - 10, last);
    var first := Step(NOBODY, calls[0]);
    assert first == Holders(Some(lease), map["first" := lease]);
    assert calls[1..] == [calls[1]] && [calls[1]][1..] == [];
    assert After(NOBODY, calls) == After(Step(first, calls[1]), []);
  }
}
