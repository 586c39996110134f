/** What every reachable state and every run of the runtime guarantees. */
module RuntimeSafety {
  import opened Asyncio
  import opened Basics
  import opened Supervisor
  import opened Runtime
  import W = Warmup

  /** No permit is lost or made up, whatever is cancelled when: each is free, or set aside for a waiter
      that has not resumed, or held by an owned lookup. */
  lemma PermitConservation(active: nat, maxQueued: nat, s: State)
    requires Reachable(active, maxQueued, s)
    ensures s.slots.value + Held(s.slots.waiters) + |s.tasks| == active
    ensures |s.tasks| <= active
  {
    ReachableInv(active, maxQueued, s);
  }

  /** `queued` counts the callers inside `acquire`, cancelled ones that have not resumed included; of
      those, grants always sit ahead of pending callers. */
  lemma QueueAccounting(active: nat, maxQueued: nat, s: State)
    requires Reachable(active, maxQueued, s)
    ensures s.queued == |s.slots.waiters| <= maxQueued
    ensures Fifo(s.slots.waiters)
  {
    ReachableInv(active, maxQueued, s);
    SameLimit(active, maxQueued, s);
  }

  lemma SameLimit(active: nat, maxQueued: nat, s: State)
    requires Reachable(active, maxQueued, s)
    ensures s.maxQueued == maxQueued
  {
    var es :| IsRun(Fresh(active, maxQueued), es) && End(Fresh(active, maxQueued), es) == s;
    LimitKept(Fresh(active, maxQueued), es);
  }

  lemma {:induction false} LimitKept(s: State, es: seq<Event>)
    requires IsRun(s, es)
    ensures End(s, es).maxQueued == s.maxQueued
    decreases |es|
  {
    if es != [] {
      LimitKept(Step(s, es[0]), es[1..]);
    }
  }

  /** Who is turned away on arrival, exactly: with the queue full, a free permit only helps if no other is
      set aside for a caller that has not resumed. A refusal changes nothing. */
  lemma RefusedExactly(active: nat, maxQueued: nat, s: State)
    requires Reachable(active, maxQueued, s)
    ensures s.Refuses() <==>
      s.closing || (s.queued == maxQueued && (s.slots.value == 0 || Held(s.slots.waiters) > 0))
    ensures s.Refuses() ==> s.Arrive() == s
    ensures !s.Refuses() ==> s.Arrive().started + s.Arrive().queued == s.started + s.queued + 1
  {
    ReachableInv(active, maxQueued, s);
    SameLimit(active, maxQueued, s);
    if s.slots.value > 0 && s.slots.Locked() {
      var w :| w in s.slots.waiters && w != Cancelled;
      assert w == Pending || Held(s.slots.waiters) > 0;
    }
    if Held(s.slots.waiters) > 0 {
      assert Granted in s.slots.waiters || Withdrawn in s.slots.waiters;
    }
  }

  /** What becomes of a newcomer, exactly: it starts at once if and only if the supervisor is open, a permit is
      free and none is set aside for a caller that has not resumed; else it is refused, or queued behind
      everybody. */
  lemma ArrivesExactly(active: nat, maxQueued: nat, s: State)
    requires Reachable(active, maxQueued, s)
    ensures var r := s.Arrive();
      && (r.started > s.started <==> !s.closing && s.slots.value > 0 && Held(s.slots.waiters) == 0)
      && (r.started > s.started ==> r.slots == Semaphore(s.slots.value - 1, s.slots.waiters) && r.queued == s.queued)
      && (r.started == s.started && !s.Refuses() ==>
            r == s.(slots := Semaphore(s.slots.value, s.slots.waiters + [Pending]), queued := s.queued + 1))
  {
    ReachableInv(active, maxQueued, s);
    if s.slots.value > 0 && s.slots.Locked() {
      var w :| w in s.slots.waiters && w != Cancelled;
      assert w == Pending || Held(s.slots.waiters) > 0;
    }
    if Held(s.slots.waiters) > 0 {
      assert Granted in s.slots.waiters || Withdrawn in s.slots.waiters;
    }
  }

  /** The steps that start a lookup, exactly: the arrivals above, and a caller that resumes with a permit it
      was granted while the supervisor is open. They start one, awaited and not asked to cancel. */
  lemma StartsExactly(active: nat, maxQueued: nat, s: State, e: Event)
    requires Reachable(active, maxQueued, s) && Enabled(s, e)
    ensures var r := Step(s, e);
      && (r.started > s.started <==>
            && !s.closing
            && ((e.Arrive? && s.slots.value > 0 && Held(s.slots.waiters) == 0)
                || (e.Proceed? && s.slots.waiters[e.i] == Granted)))
      && (r.started > s.started ==>
            && r.started == s.started + 1 && r.tasks.Keys == s.tasks.Keys + {s.started}
            && r.tasks[s.started] == Lookup(Running(false), Awaiting))
  {
    if e.Arrive? {
      ArrivesExactly(active, maxQueued, s);
    }
  }

  /** Two slots taken, one caller queued. */
  lemma TwoOwnedOneQueued() returns (s: State)
    ensures Reachable(2, 1, s) && s.slots == Semaphore(0, [Pending]) && s.queued == s.maxQueued == 1 && !s.closing
    ensures s.tasks == map[0 := Lookup(Running(false), Awaiting), 1 := Lookup(Running(false), Awaiting)]
  {
    var a0 := Fresh(2, 1);
    assert IsRun(a0, []) && End(a0, []) == a0;
    var a1 := Go(2, 1, a0, Arrive);
    assert a1.slots == Semaphore(1, []) && a1.started == 1 && a1.queued == 0;
    var a2 := Go(2, 1, a1, Arrive);
    assert a2.slots == Semaphore(0, []) && a2.started == 2 && a2.queued == 0;
    s := Go(2, 1, a2, Arrive);
  }

  /** A full queue can turn a caller away while a permit is free: two lookups end, the only queued caller
      has been granted one of the two permits and has not resumed. */
  lemma RefusedBesideFreePermit() returns (s: State)
    ensures Reachable(2, 1, s) && s.slots.value == 1 && s.Refuses() && !s.closing
  {
    var a := TwoOwnedOneQueued();
    a := Go(2, 1, a, LookupEnds(0, false));
    a := Go(2, 1, a, LookupEnds(1, false));
    a := Go(2, 1, a, LookupReported(0));
    assert a.slots == Semaphore(0, [Granted]) && a.tasks == map[1 := Lookup(Done(false), Awaiting)];
    s := Go(2, 1, a, LookupReported(1));
    assert s.slots == Semaphore(1, [Granted]) && s.slots.waiters[0] in s.slots.waiters;
  }

  // ------------------------------------------------------------------------- first come, first served

  /** The place in the queue, after event `e`, of the caller that had place `i`; none once it has left. */
  function PlaceAfter(e: Event, i: nat): Option<nat> {
    if !e.Proceed? || i < e.i then Some(i) else if i == e.i then None else Some(i - 1)
  }

  /** What that caller's future shows then, if it is still in the queue. */
  function StandingAfter(s: State, e: Event, i: nat): Option<Waiter>
    requires Enabled(s, e)
  {
    var k := PlaceAfter(e, i);
    if k.Some? && k.value < |Step(s, e).slots.waiters| then Some(Step(s, e).slots.waiters[k.value]) else None
  }

  lemma LeaveGrants(s: Semaphore, c: nat, i: nat)
    requires c < |s.waiters| && i < |s.waiters| && i != c
    ensures var k := if i < c then i else i - 1;
      |s.Leave(c).waiters| == |s.waiters| - 1 && Grants(s.waiters[i], s.Leave(c).waiters[k])
  {
    var left := Remove(s.waiters, c);
    var k := if i < c then i else i - 1;
    assert left[k] == s.waiters[i];
    HandOutGrants(Semaphore(if s.waiters[c] == Withdrawn then s.value + 1 else s.value, left), k);
  }

  lemma ReleaseGrants(s: Semaphore, i: nat)
    requires i < |s.waiters|
    ensures |s.Release().waiters| == |s.waiters| && Grants(s.waiters[i], s.Release().waiters[i])
  {
  }

  lemma ProceedGrants(s: State, c: nat, i: nat)
    requires Enabled(s, Proceed(c)) && i < |s.slots.waiters| && i != c
    ensures var k := if i < c then i else i - 1;
      k < |s.Proceed(c).slots.waiters| && Grants(s.slots.waiters[i], s.Proceed(c).slots.waiters[k])
  {
    LeaveGrants(s.slots, c, i);
    var left := s.slots.Leave(c);
    ReleaseGrants(left, if i < c then i else i - 1);
    assert s.Proceed(c).slots == left || s.Proceed(c).slots == left.Release();
  }

  /** What one step can do to a caller that stays in the queue: grant it a permit, or cancel it. */
  lemma CallerAfter(s: State, e: Event, i: nat)
    requires Enabled(s, e) && i < |s.slots.waiters| && PlaceAfter(e, i).Some?
    ensures StandingAfter(s, e, i).Some?
    ensures if e == CancelWaiter(i)
            then StandingAfter(s, e, i).value == if s.slots.waiters[i] == Pending then Cancelled else Withdrawn
            else Grants(s.slots.waiters[i], StandingAfter(s, e, i).value)
  {
    if e.Proceed? {
      ProceedGrants(s, e.i, i);
    } else if e.LookupReported? {
      ReleaseGrants(s.slots, i);
    }
  }

  lemma StartsAtOnce(s: State)
    requires Pending in s.slots.waiters
    ensures s.Arrive().started == s.started
  {
  }

  lemma StartsInOrder(s: State, e: Event, i: nat)
    requires Fifo(s.slots.waiters) && Enabled(s, e) && i < |s.slots.waiters| && s.slots.waiters[i] == Pending
    requires e != Proceed(i) && Step(s, e).started > s.started
    ensures e.Proceed? && e.i < i
  {
    if e.Arrive? {
      StartsAtOnce(s);
    }
  }

  /** No step overtakes a caller that is pending before and after it: a lookup starts only for somebody in
      front of it, and so is every permit granted, whoever gave it back. */
  lemma NobodyOvertakes(active: nat, maxQueued: nat, s: State, e: Event, i: nat, j: nat)
    requires Reachable(active, maxQueued, s) && Enabled(s, e)
    requires i < j && i < |s.slots.waiters| && s.slots.waiters[i] == Pending && StandingAfter(s, e, i) == Some(Pending)
    ensures Step(s, e).started > s.started ==> e.Proceed? && e.i < i
    ensures StandingAfter(s, e, j) != Some(Granted) && StandingAfter(s, e, j) != Some(Withdrawn)
  {
    ReachableInv(active, maxQueued, s);
    if Step(s, e).started > s.started {
      StartsInOrder(s, e, i);
    }
    StepKeeps(s, active, e);
    InOrder(s, e, i, j);
  }

  lemma InOrder(s: State, e: Event, i: nat, j: nat)
    requires Enabled(s, e) && i < j && Fifo(Step(s, e).slots.waiters) && StandingAfter(s, e, i) == Some(Pending)
    ensures StandingAfter(s, e, j) != Some(Granted) && StandingAfter(s, e, j) != Some(Withdrawn)
  {
    var after := Step(s, e).slots.waiters;
    var k, l := PlaceAfter(e, i), PlaceAfter(e, j);
    if l.Some? {
      assert k.value < l.value;
    }
  }

  /** Along run `es` from `s`, is the caller that has place `i` in `s` ever in state `w`? */
  ghost predicate Ever(s: State, es: seq<Event>, i: nat, w: Waiter)
    requires IsRun(s, es)
    decreases |es|
  {
    && i < |s.slots.waiters|
    && (s.slots.waiters[i] == w
        || (es != [] && PlaceAfter(es[0], i).Some? && Ever(Step(s, es[0]), es[1..], PlaceAfter(es[0], i).value, w)))
  }

  /** A caller cancelled while pending never gets a permit. */
  lemma {:induction false} CancelledIsNotGranted(s: State, es: seq<Event>, i: nat)
    requires IsRun(s, es) && i < |s.slots.waiters| && s.slots.waiters[i] == Cancelled
    ensures !Ever(s, es, i, Granted)
    decreases |es|
  {
    if es != [] && PlaceAfter(es[0], i).Some? {
      CallerAfter(s, es[0], i);
      CancelledIsNotGranted(Step(s, es[0]), es[1..], PlaceAfter(es[0], i).value);
    }
  }

  lemma {:induction false} ServedInOrder(s: State, active: nat, es: seq<Event>, i: nat, j: nat)
    requires Inv(s, active) && IsRun(s, es) && i < j < |s.slots.waiters|
    requires s.slots.waiters[i] == s.slots.waiters[j] == Pending && Ever(s, es, j, Granted)
    ensures Ever(s, es, i, Granted) || Ever(s, es, i, Cancelled)
    decreases |es|
  {
    var r := Step(s, es[0]);
    var k, l := PlaceAfter(es[0], i).value, PlaceAfter(es[0], j).value;
    StepKeeps(s, active, es[0]);
    CallerAfter(s, es[0], i);
    CallerAfter(s, es[0], j);
    if r.slots.waiters[k] == Pending {
      if r.slots.waiters[l] == Cancelled {
        CancelledIsNotGranted(r, es[1..], l);
      } else {
        ServedInOrder(r, active, es[1..], k, l);
      }
    } else {
      assert Ever(r, es[1..], k, r.slots.waiters[k]);
    }
  }

  /** First come, first served: of two callers that wait in this order, the later is granted a permit, at any
      point of any run, only if by then the earlier has been granted one or was cancelled. */
  lemma FirstComeFirstServed(active: nat, maxQueued: nat, s: State, es: seq<Event>, i: nat, j: nat)
    requires Reachable(active, maxQueued, s) && IsRun(s, es) && i < j < |s.slots.waiters|
    requires s.slots.waiters[i] == s.slots.waiters[j] == Pending && Ever(s, es, j, Granted)
    ensures Ever(s, es, i, Granted) || Ever(s, es, i, Cancelled)
  {
    ReachableInv(active, maxQueued, s);
    ServedInOrder(s, active, es, i, j);
  }

  /** No orphans, and no lookup stopped without a reason: a running lookup has been asked to cancel if and
      only if its caller has left or the supervisor is closing. */
  lemma AskedExactly(active: nat, maxQueued: nat, s: State, t: nat)
    requires Reachable(active, maxQueued, s) && t in s.tasks && s.tasks[t].task.Running?
    ensures s.tasks[t].task == Running(s.tasks[t].owner == Gone || s.closing)
  {
    ReachableInv(active, maxQueued, s);
  }

  /** A step leaves every lookup alone but the one it is about; closing asks them all to cancel and does
      nothing else to them. */
  lemma LookupAfter(active: nat, maxQueued: nat, s: State, e: Event, t: nat)
    requires Reachable(active, maxQueued, s) && Enabled(s, e) && t in s.tasks
    ensures var r, l := Step(s, e), s.tasks[t];
      && (t in r.tasks <==> e != LookupReported(t))
      && (t in r.tasks ==>
          && (r.tasks[t].owner != l.owner ==> e == Interrupt(t) || e == Abandon(t))
          && (r.tasks[t].task != l.task ==>
                || (e == LookupEnds(t, true) && r.tasks[t].task == Done(true))
                || (e == LookupEnds(t, false) && r.tasks[t].task == Done(false))
                || ((e == Abandon(t) || e == Close) && l.task.Running? && r.tasks[t].task == Running(true))))
  {
    ReachableInv(active, maxQueued, s);
  }

  /** The warmup yields: while a lookup is owned it is paused, and if its job is unfinished a cancel
      request is out. */
  lemma ForegroundPriority(active: nat, maxQueued: nat, s: State)
    requires Reachable(active, maxQueued, s) && s.tasks != map[]
    ensures s.warm.paused
    ensures s.warm.Unfinished() ==> s.warm.Last().task == Running(true)
  {
    ReachableInv(active, maxQueued, s);
  }

  /** While both objects are open and there is a slot at all, the warmup is paused exactly when some
      caller is queued or some lookup is owned. */
  lemma PausedExactlyWhenBusy(active: nat, maxQueued: nat, s: State)
    requires Reachable(active, maxQueued, s) && active > 0 && !s.closing && !s.warm.closing
    ensures s.warm.paused <==> s.tasks != map[] || s.queued != 0
  {
    ReachableInv(active, maxQueued, s);
  }

  /** A resume is never lost: idle and open, the warmup is completed, or running, or has a callback coming
      that completes or restarts it. */
  lemma NoLostResume(active: nat, maxQueued: nat, s: State)
    requires Reachable(active, maxQueued, s) && Idle(s) && !s.closing && !s.warm.closing
    ensures !s.warm.paused && s.warm.HasJob()
    ensures var j := |s.warm.jobs| - 1;
      || s.warm.completed
      || s.warm.Unfinished()
      || (s.warm.CanReport(j) && (s.warm.Finished(j).completed || s.warm.Finished(j).Unfinished()))
  {
    ReachableInv(active, maxQueued, s);
    if s.warm.CanReport(|s.warm.jobs| - 1) {
      W.FinishedKeeps(s.warm, |s.warm.jobs| - 1);
    }
  }

  /** The work is never run twice at once, and never again once it ended without being cancelled. */
  lemma WarmupNeverOverlaps(active: nat, maxQueued: nat, s: State, i: nat, j: nat)
    requires Reachable(active, maxQueued, s) && i < j < |s.warm.jobs|
    ensures s.warm.jobs[i].task == Done(true)
  {
    ReachableInv(active, maxQueued, s);
  }

  /** The steps that start the work: only into an idle, open system, one job at a time, and only after
      every earlier job was cancelled. */
  lemma WarmupStartsOnlyWhenIdle(active: nat, maxQueued: nat, s: State, e: Event)
    requires Reachable(active, maxQueued, s) && active > 0 && Enabled(s, e)
    requires |Step(s, e).warm.jobs| != |s.warm.jobs|
    ensures var r := Step(s, e);
      && Idle(r) && !r.warm.closing && !s.warm.completed
      && |r.warm.jobs| == |s.warm.jobs| + 1 && r.warm.Last() == W.Job(Running(false), false)
    ensures forall j :: 0 <= j < |s.warm.jobs| ==> s.warm.jobs[j].task == Done(true)
  {
    ReachableInv(active, maxQueued, s);
    StepKeeps(s, active, e);
    var ops := StepOfWarmup(s, e);
    W.StartsAfterCancelled(s.warm, ops);
  }
}
