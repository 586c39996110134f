/** Progress: a measure that everything but an accepted arrival lowers, what is left when nothing can
    move, and what a shutdown does to later steps. */
module RuntimeDrain {
  import opened Asyncio
  import opened Supervisor
  import opened Runtime
  import W = Warmup

  /** Steps of the lookup side that the event loop takes on its own once the lookups stop. */
  predicate Internal(e: Event) {
    e.Proceed? || e.Abandon? || e.LookupEnds? || e.LookupReported?
  }

  /** All steps about callers and lookups, the callers' cancellations included, arrivals not. */
  predicate Departing(e: Event) {
    Internal(e) || e.CancelWaiter? || e.Interrupt?
  }

  predicate LookupSide(e: Event) {
    Departing(e) || e.Arrive? || e.Close?
  }

  // -------------------------------------------------------------------------------------- the measure

  ghost function Where(m: map<nat, Lookup>, p: Lookup -> bool): set<nat> {
    set t | t in m && p(m[t])
  }

  const UNENDED := (l: Lookup) => l.task.Running?
  const AWAITED := (l: Lookup) => l.owner == Awaiting
  const ATTENDED := (l: Lookup) => l.owner != Gone

  ghost function Size(m: map<nat, Lookup>): nat {
    |m| + |Where(m, UNENDED)| + |Where(m, AWAITED)| + |Where(m, ATTENDED)|
  }

  function SizeOf(l: Lookup): nat {
    1 + (if UNENDED(l) then 1 else 0) + (if AWAITED(l) then 1 else 0) + (if ATTENDED(l) then 1 else 0)
  }

  ghost function Measure(s: State): nat {
    Load(s.slots.waiters) + Size(s.tasks)
  }

  lemma WhereInsert(m: map<nat, Lookup>, t: nat, l: Lookup, p: Lookup -> bool)
    requires t !in m
    ensures |Where(m[t := l], p)| == |Where(m, p)| + (if p(l) then 1 else 0)
  {
    assert Where(m[t := l], p) == Where(m, p) + if p(l) then {t} else {};
  }

  lemma Insert(m: map<nat, Lookup>, t: nat, l: Lookup)
    requires t !in m
    ensures Size(m[t := l]) == Size(m) + SizeOf(l)
  {
    assert m[t := l].Keys == m.Keys + {t};
    WhereInsert(m, t, l, UNENDED);
    WhereInsert(m, t, l, AWAITED);
    WhereInsert(m, t, l, ATTENDED);
  }

  lemma Delete(m: map<nat, Lookup>, t: nat)
    requires t in m
    ensures Size(m - {t}) == Size(m) - SizeOf(m[t])
  {
    assert (m - {t})[t := m[t]] == m;
    Insert(m - {t}, t, m[t]);
  }

  lemma Change(m: map<nat, Lookup>, t: nat, l: Lookup)
    requires t in m
    ensures Size(m[t := l]) == Size(m) - SizeOf(m[t]) + SizeOf(l)
  {
    Delete(m, t);
    Insert(m - {t}, t, l);
    assert (m - {t})[t := l] == m[t := l];
  }

  lemma AdmitAdds(s: State)
    requires s.started !in s.tasks
    ensures Measure(s.Admit()) == Measure(s) + 4
  {
    Insert(s.tasks, s.started, Lookup(Running(false), Awaiting));
  }

  lemma ReleaseAddsNothing(s: State)
    requires s.slots.Valid()
    ensures Measure(s.(slots := s.slots.Release())) <= Measure(s)
  {
    ReleaseKeeps(s.slots);
  }

  lemma LeaveLowers(s: State, i: nat)
    requires s.slots.Valid() && i < |s.slots.waiters| && s.slots.waiters[i] != Pending
    ensures var r := s.(slots := s.slots.Leave(i), queued := s.queued - 1);
      && r.slots.Valid()
      && Measure(r) < Measure(s) - (if s.slots.waiters[i] == Granted then 4 else 0)
  {
    LeaveKeeps(s.slots, i);
  }

  lemma ProceedLowers(s: State, active: nat, i: nat)
    requires Inv(s, active) && Enabled(s, Proceed(i))
    ensures Measure(s.Proceed(i)) < Measure(s)
  {
    LeaveLowers(s, i);
    var r := s.(slots := s.slots.Leave(i), queued := s.queued - 1);
    if s.slots.waiters[i] != Granted {
      assert s.Proceed(i) == r.ResumeWhenIdle();
    } else if s.closing {
      assert s.Proceed(i) == r.(slots := r.slots.Release());
      ReleaseAddsNothing(r);
    } else {
      assert s.Proceed(i) == r.Admit();
      AdmitAdds(r);
    }
  }

  lemma ChangeLowers(s: State, t: nat, l: Lookup)
    requires t in s.tasks && SizeOf(l) < SizeOf(s.tasks[t])
    ensures Measure(s.(tasks := s.tasks[t := l])) < Measure(s)
  {
    Change(s.tasks, t, l);
  }

  lemma ReportLowers(s: State, active: nat, t: nat)
    requires Inv(s, active) && t in s.tasks
    ensures Measure(s.Finished(t)) < Measure(s)
  {
    ReleaseKeeps(s.slots);
    Delete(s.tasks, t);
  }

  /** Whatever callers and lookups do, short of a new arrival, lowers the measure. */
  lemma DepartingLowers(s: State, active: nat, e: Event)
    requires Inv(s, active) && Enabled(s, e) && Departing(e)
    ensures Measure(Step(s, e)) < Measure(s)
  {
    if e.Proceed? {
      ProceedLowers(s, active, e.i);
    } else if e.CancelWaiter? {
      CancelWaiterKeeps(s.slots, e.i);
    } else if e.LookupReported? {
      ReportLowers(s, active, e.t);
    } else {
      var l := s.tasks[e.t];
      ChangeLowers(s, e.t,
        if e.Interrupt? then l.(owner := Interrupted)
        else if e.Abandon? then Lookup(l.task.Cancel(), Gone)
        else l.(task := Done(e.cancelled)));
    }
  }

  lemma OthersKeepMeasure(s: State, e: Event)
    requires Enabled(s, e) && !Departing(e) && (e == Arrive ==> s.Refuses())
    ensures Measure(Step(s, e)) == Measure(s)
  {
    if e == Close {
      var r := s.Cancel();
      assert r.tasks.Keys == s.tasks.Keys;
      assert |r.tasks| == |r.tasks.Keys| == |s.tasks.Keys| == |s.tasks|;
      assert Where(r.tasks, UNENDED) == Where(s.tasks, UNENDED);
      assert Where(r.tasks, AWAITED) == Where(s.tasks, AWAITED);
      assert Where(r.tasks, ATTENDED) == Where(s.tasks, ATTENDED);
    }
  }

  // ------------------------------------------------------------------------------------ quiescence

  /** Nothing on the lookup side can move by itself. */
  ghost predicate Quiet(s: State) {
    forall e :: Internal(e) ==> !Enabled(s, e)
  }

  ghost predicate Drained(s: State, active: nat) {
    s.tasks == map[] && s.queued == 0 && s.slots == Semaphore(active, [])
  }

  /** No lost wakeup: a pending caller always has somebody in front who can step, a caller with a permit
      that has not resumed or an owned lookup. */
  lemma PendingIsServed(active: nat, maxQueued: nat, s: State)
    requires Reachable(active, maxQueued, s) && active > 0 && Pending in s.slots.waiters
    ensures Granted in s.slots.waiters || Withdrawn in s.slots.waiters || s.tasks != map[]
    ensures !Quiet(s)
  {
    ReachableInv(active, maxQueued, s);
    if s.slots.value == 0 && Held(s.slots.waiters) == 0 {
      assert |s.tasks| == active;
      OwnedCanMove(s);
    } else {
      assert Granted in s.slots.waiters || Withdrawn in s.slots.waiters;
      var i :| 0 <= i < |s.slots.waiters| && s.slots.waiters[i] != Pending;
      assert Enabled(s, Proceed(i));
    }
  }

  lemma OwnedCanMove(s: State)
    requires s.tasks != map[]
    ensures !Quiet(s)
  {
    var t :| t in s.tasks;
    assert Enabled(s, if s.tasks[t].task.Running? then LookupEnds(t, true) else LookupReported(t));
  }

  /** The only states in which nothing moves are the drained ones. */
  lemma QuietExactlyWhenDrained(active: nat, maxQueued: nat, s: State)
    requires Reachable(active, maxQueued, s) && active > 0
    ensures Quiet(s) <==> Drained(s, active)
  {
    ReachableInv(active, maxQueued, s);
    if Quiet(s) {
      if s.tasks != map[] {
        OwnedCanMove(s);
      }
      if s.slots.waiters != [] {
        if s.slots.waiters[0] == Pending {
          PendingIsServed(active, maxQueued, s);
        }
        assert Enabled(s, Proceed(0));
      }
    }
  }

  /** With no slots at all a queued caller stays for ever, so `active > 0` above is needed. */
  lemma NoSlotsNoService() returns (s: State)
    ensures Reachable(0, 1, s) && Quiet(s) && !Drained(s, 0)
  {
    var a := Fresh(0, 1);
    assert IsRun(a, []) && End(a, []) == a;
    assert IsRun(a, [Arrive]) && End(a, [Arrive]) == Step(a, Arrive) by {
      assert [Arrive][1..] == [];
    }
    s := Step(a, Arrive);
    assert s.slots.waiters == [Pending];
  }

  // ------------------------------------------------------------------------------------------ runs

  function Departures(es: seq<Event>): nat {
    if es == [] then 0 else (if Departing(es[0]) then 1 else 0) + Departures(es[1..])
  }

  ghost predicate AdmitsNobody(s: State, es: seq<Event>)
    requires IsRun(s, es)
    decreases |es|
  {
    es == [] || ((es[0] == Arrive ==> s.Refuses()) && AdmitsNobody(Step(s, es[0]), es[1..]))
  }

  lemma {:induction false} BoundedByMeasure(s: State, active: nat, es: seq<Event>)
    requires Inv(s, active) && IsRun(s, es) && AdmitsNobody(s, es)
    ensures Departures(es) + Measure(End(s, es)) <= Measure(s)
    decreases |es|
  {
    if es != [] {
      if Departing(es[0]) {
        DepartingLowers(s, active, es[0]);
      } else {
        OthersKeepMeasure(s, es[0]);
      }
      StepKeeps(s, active, es[0]);
      BoundedByMeasure(Step(s, es[0]), active, es[1..]);
    }
  }

  /** Once nobody new is admitted, callers and lookups can take at most `Measure(s)` more steps, and where
      no further one is possible everything has been given back. */
  lemma ServiceTerminates(active: nat, maxQueued: nat, s: State, es: seq<Event>)
    requires Reachable(active, maxQueued, s) && IsRun(s, es) && AdmitsNobody(s, es)
    ensures Departures(es) <= Measure(s)
    ensures active > 0 ==> (Quiet(End(s, es)) <==> Drained(End(s, es), active))
  {
    ReachableInv(active, maxQueued, s);
    BoundedByMeasure(s, active, es);
    ReachableOnward(active, maxQueued, s, es);
    if active > 0 {
      QuietExactlyWhenDrained(active, maxQueued, End(s, es));
    }
  }

  lemma ReachableOnward(active: nat, maxQueued: nat, s: State, es: seq<Event>)
    requires Reachable(active, maxQueued, s) && IsRun(s, es)
    ensures Reachable(active, maxQueued, End(s, es))
  {
    var before :| IsRun(Fresh(active, maxQueued), before) && End(Fresh(active, maxQueued), before) == s;
    Join(Fresh(active, maxQueued), before, es);
  }

  lemma {:induction false} Join(s: State, xs: seq<Event>, ys: seq<Event>)
    requires IsRun(s, xs) && IsRun(End(s, xs), ys)
    ensures IsRun(s, xs + ys) && End(s, xs + ys) == End(End(s, xs), ys)
    decreases |xs|
  {
    if xs == [] {
      assert xs + ys == ys;
    } else {
      assert (xs + ys)[1..] == xs[1..] + ys;
      Join(Step(s, xs[0]), xs[1..], ys);
    }
  }

  /** After `cancel()` no lookup ever starts and every arrival is refused, so the drain terminates; each
      lookup still running has a cancel request out. */
  lemma DrainTerminates(active: nat, maxQueued: nat, s: State, es: seq<Event>)
    requires Reachable(active, maxQueued, s) && s.closing && IsRun(s, es)
    ensures var r := End(s, es);
      && r.closing && r.started == s.started
      && (forall t :: t in r.tasks ==> t in s.tasks && r.tasks[t].task != Running(false))
      && Departures(es) <= Measure(s)
      && (active > 0 ==> (Quiet(r) <==> Drained(r, active)))
  {
    ReachableInv(active, maxQueued, s);
    ClosedForGood(s, es);
    ServiceTerminates(active, maxQueued, s, es);
    ReachableOnward(active, maxQueued, s, es);
    ReachableInv(active, maxQueued, End(s, es));
  }

  lemma {:induction false} ClosedForGood(s: State, es: seq<Event>)
    requires IsRun(s, es) && s.closing
    ensures End(s, es).closing && End(s, es).started == s.started && End(s, es).tasks.Keys <= s.tasks.Keys
    ensures AdmitsNobody(s, es)
    decreases |es|
  {
    if es != [] {
      ClosedForGood(Step(s, es[0]), es[1..]);
    }
  }

  // ----------------------------------------------------------------------- one release for each lookup

  function Reports(es: seq<Event>, t: nat): nat {
    if es == [] then 0 else (if es[0] == LookupReported(t) then 1 else 0) + Reports(es[1..], t)
  }

  /** In any run, the slot of each lookup that was started is released once if the lookup is no longer
      owned, and has not been released if it still is. */
  lemma ReleasedExactlyOnce(active: nat, maxQueued: nat, es: seq<Event>, t: nat)
    requires IsRun(Fresh(active, maxQueued), es)
    ensures var r := End(Fresh(active, maxQueued), es);
      Reports(es, t) == if t < r.started && t !in r.tasks then 1 else 0
  {
    FreshInv(active, maxQueued);
    ReportsCount(Fresh(active, maxQueued), active, es, t);
  }

  function Released(s: State, t: nat): nat {
    if t < s.started && t !in s.tasks then 1 else 0
  }

  lemma ReportReleases(s: State, active: nat, e: Event, t: nat)
    requires Inv(s, active) && Enabled(s, e)
    ensures s.started <= Step(s, e).started
    ensures Released(Step(s, e), t) == Released(s, t) + if e == LookupReported(t) then 1 else 0
  {
  }

  lemma {:induction false} ReportsCount(s: State, active: nat, es: seq<Event>, t: nat)
    requires Inv(s, active) && IsRun(s, es)
    ensures Released(End(s, es), t) == Released(s, t) + Reports(es, t)
    decreases |es|
  {
    if es != [] {
      StepKeeps(s, active, es[0]);
      ReportReleases(s, active, es[0], t);
      ReportsCount(Step(s, es[0]), active, es[1..], t);
    }
  }

  // ------------------------------------------------------------------------------------- the signal

  /** After a signal that lands between two steps the warmup starts nothing more. */
  lemma {:induction false} WarmupStaysDown(s: State, es: seq<Event>)
    requires s.warm.closing && IsRun(s, es)
    ensures End(s, es).warm.closing && |End(s, es).warm.jobs| == |s.warm.jobs|
    decreases |es|
  {
    if es != [] {
      var ops := StepOfWarmup(s, es[0]);
      W.ClosedForGood(s.warm, ops);
      WarmupStaysDown(Step(s, es[0]), es[1..]);
    }
  }

  /** A closed warmup yields to the lookups, even if its job escaped the signal. */
  ghost predicate Yields(s: State) {
    s.warm.closing && (s.tasks != map[] ==> s.warm.paused && !W.Unasked(s.warm))
  }

  lemma YieldsOn(s: State, e: Event)
    requires Yields(s) && Enabled(s, e)
    ensures var r := Step(s, e);
      && Yields(r) && |r.warm.jobs| == |s.warm.jobs|
      && (W.Unasked(r.warm) ==> W.Unasked(s.warm) && r.started == s.started && e != Signal)
  {
    var ops := StepOfWarmup(s, e);
    W.ClosedForGood(s.warm, ops);
  }

  lemma {:induction false} YieldsForGood(s: State, es: seq<Event>)
    requires Yields(s) && IsRun(s, es)
    ensures var r := End(s, es);
      && Yields(r) && |r.warm.jobs| == |s.warm.jobs|
      && (W.Unasked(r.warm) ==> W.Unasked(s.warm) && r.started == s.started && Signal !in es)
    decreases |es|
  {
    if es != [] {
      YieldsOn(s, es[0]);
      YieldsForGood(Step(s, es[0]), es[1..]);
    }
  }

  /** Wherever inside a call of `resume` the signal lands: once that step is over no job starts, and the
      warmup still yields to every lookup. A job is left that nobody has asked to stop exactly if the signal
      came between the check that let it start and the new task being stored; it is asked when the next
      lookup starts. */
  lemma SignalInsideStep(active: nat, maxQueued: nat, s: State, e: Event, p: W.Point, es: seq<Event>)
    requires Reachable(active, maxQueued, s) && Enabled(s, e) && Resumes(s, e)
    requires IsRun(StepSignalled(s, e, p), es)
    ensures var r := StepSignalled(s, e, p);
      var q := End(r, es);
      && |q.warm.jobs| == |r.warm.jobs|
      && (q.tasks != map[] ==> q.warm.paused && !W.Unasked(q.warm))
      && (W.Unasked(r.warm) <==> p == W.Checked && W.Starts(s.warm))
      && (W.Unasked(q.warm) ==> W.Unasked(r.warm) && q.started == r.started && Signal !in es)
  {
    ReachableInv(active, maxQueued, s);
    var r := StepSignalled(s, e, p);
    assert r.tasks == map[];
    W.SignalInsideResume(AtResume(s, e), p, []);
    YieldsForGood(r, es);
  }

  /** One slot, one lookup, and a warmup that was cancelled for it and has stopped. */
  lemma WarmupPutAside() returns (s: State)
    ensures Reachable(1, 0, s) && s.warm == W.State([W.Job(Done(true), true)], true, false, false)
    ensures s.tasks == map[0 := Lookup(Running(false), Awaiting)] && s.queued == 0 && !s.closing
  {
    var a := Fresh(1, 0);
    assert IsRun(a, []) && End(a, []) == a;
    var a1 := Go(1, 0, a, Arrive);
    assert a1.warm == W.State([W.Job(Running(true), false)], true, false, false);
    var a2 := Go(1, 0, a1, WarmupEnds(0, true));
    s := Go(1, 0, a2, WarmupReported(0));
  }

  /** That place can be met: the warmup is cancelled for the first lookup, and the signal lands in the
      `resume` that follows it. */
  lemma SignalLeavesJobUnasked() returns (s: State)
    ensures Reachable(1, 0, s) && Enabled(s, LookupReported(0)) && Resumes(s, LookupReported(0))
    ensures W.Unasked(StepSignalled(s, LookupReported(0), W.Checked).warm)
  {
    var a := WarmupPutAside();
    s := Go(1, 0, a, LookupEnds(0, false));
    assert s.warm == a.warm && s.tasks == map[0 := Lookup(Done(false), Awaiting)];
    assert s.tasks - {0} == map[];
    W.SignalInsideResume(s.warm, W.Checked, []);
  }

  // ------------------------------------------------------------------- the warmup beside the lookups

  /** The events of a run that are about callers and lookups. */
  function Side(es: seq<Event>): seq<Event> {
    if es == [] then [] else (if LookupSide(es[0]) then [es[0]] else []) + Side(es[1..])
  }

  /** The warmup never influences the lookups: take any run, the signal and the warmup's own steps included,
      leave those out, and put any other warmup in the place; callers and lookups fare the same. So the
      signal leaves the queue served as before. */
  lemma {:induction false} LookupsIgnoreWarmup(s: State, w: W.State, es: seq<Event>)
    requires IsRun(s, es)
    ensures IsRun(s.(warm := w), Side(es))
    ensures End(s.(warm := w), Side(es)).(warm := w) == End(s, es).(warm := w)
    decreases |es|
  {
    if es != [] {
      var r := Step(s, es[0]);
      if LookupSide(es[0]) {
        var q := Step(s.(warm := w), es[0]);
        assert q == r.(warm := q.warm);
        LookupsIgnoreWarmup(r, q.warm, es[1..]);
        assert Side(es)[0] == es[0] && Side(es)[1..] == Side(es[1..]);
        assert End(q, Side(es[1..])).(warm := w) == End(q, Side(es[1..])).(warm := q.warm).(warm := w);
      } else {
        assert r.(warm := w) == s.(warm := w) && Side(es) == Side(es[1..]);
        LookupsIgnoreWarmup(r, w, es[1..]);
      }
    }
  }
}
