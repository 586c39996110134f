/** The supervisor and the warmup as one transition system: a step is the code between two suspensions, or
    one callback, or one thing the outside does. Runs are finite sequences of enabled events. */
module Runtime {
  import opened Asyncio
  import opened Supervisor
  import W = Warmup

  datatype Event =
    | Arrive                                    // a caller enters run
    | CancelWaiter(i: nat)                      // a caller inside acquire is cancelled
    | Proceed(i: nat)                           // a caller inside acquire resumes
    | Interrupt(t: nat)                         // a caller awaiting its lookup is cancelled
    | Abandon(t: nat)                           // and resumes
    | LookupEnds(t: nat, cancelled: bool)       // a lookup's task stops, its cleanup included
    | LookupReported(t: nat)                    // its done-callback runs
    | WarmupEnds(j: nat, jobCancelled: bool)
    | WarmupReported(j: nat)
    | Signal                                    // the shutdown signal cancels the warmup
    | Close                                     // the supervisor is cancelled

  predicate Enabled(s: State, e: Event) {
    match e
    case Arrive => true
    case CancelWaiter(i) => i < |s.slots.waiters| && s.slots.waiters[i] in {Pending, Granted}
    case Proceed(i) => i < |s.slots.waiters| && s.slots.waiters[i] != Pending
    case Interrupt(t) => t in s.tasks && s.tasks[t].owner == Awaiting
    case Abandon(t) => t in s.tasks && s.tasks[t].owner == Interrupted
    case LookupEnds(t, _) => t in s.tasks && s.tasks[t].task.Running?
    case LookupReported(t) => t in s.tasks && s.tasks[t].task.Done?
    case WarmupEnds(j, _) => j < |s.warm.jobs| && s.warm.jobs[j].task.Running?
    case WarmupReported(j) => s.warm.CanReport(j)
    case Signal => true
    case Close => true
  }

  function Step(s: State, e: Event): State
    requires Enabled(s, e)
  {
    match e
    case Arrive => s.Arrive()
    case CancelWaiter(i) => s.(slots := s.slots.CancelWaiter(i))
    case Proceed(i) => s.Proceed(i)
    case Interrupt(t) => s.(tasks := s.tasks[t := s.tasks[t].(owner := Interrupted)])
    case Abandon(t) => s.Abandon(t)
    case LookupEnds(t, cancelled) => s.(tasks := s.tasks[t := s.tasks[t].(task := Done(cancelled))])
    case LookupReported(t) => s.Finished(t)
    case WarmupEnds(j, cancelled) => s.(warm := s.warm.End(j, cancelled))
    case WarmupReported(j) => s.(warm := s.warm.Finished(j))
    case Signal => s.(warm := s.warm.Cancel())
    case Close => s.Cancel()
  }

  ghost predicate IsRun(s: State, es: seq<Event>)
    decreases |es|
  {
    es == [] || (Enabled(s, es[0]) && IsRun(Step(s, es[0]), es[1..]))
  }

  function End(s: State, es: seq<Event>): State
    requires IsRun(s, es)
    decreases |es|
  {
    if es == [] then s else End(Step(s, es[0]), es[1..])
  }

  ghost predicate Reachable(active: nat, maxQueued: nat, s: State) {
    exists es :: IsRun(Fresh(active, maxQueued), es) && End(Fresh(active, maxQueued), es) == s
  }

  lemma Go(active: nat, maxQueued: nat, s: State, e: Event) returns (r: State)
    requires Reachable(active, maxQueued, s) && Enabled(s, e)
    ensures r == Step(s, e) && Reachable(active, maxQueued, r)
  {
    var es :| IsRun(Fresh(active, maxQueued), es) && End(Fresh(active, maxQueued), es) == s;
    RunThen(Fresh(active, maxQueued), es, e);
    r := Step(s, e);
  }

  lemma {:induction false} RunThen(s: State, es: seq<Event>, e: Event)
    requires IsRun(s, es) && Enabled(End(s, es), e)
    ensures IsRun(s, es + [e]) && End(s, es + [e]) == Step(End(s, es), e)
    decreases |es|
  {
    if es == [] {
      assert (es + [e])[1..] == [];
    } else {
      assert (es + [e])[1..] == es[1..] + [e];
      RunThen(Step(s, es[0]), es[1..], e);
    }
  }

  // ---------------------------------------------------------------------------------- the invariant

  ghost predicate LookupsOk(s: State) {
    forall t :: t in s.tasks ==>
      && t < s.started
      && (s.tasks[t].task.Running? ==> s.tasks[t].task.asked == (s.closing || s.tasks[t].owner == Gone))
  }

  ghost predicate Idle(s: State) {
    s.tasks == map[] && s.queued == 0
  }

  /** Everything but the idle clauses: what also holds in the middle of a step. */
  ghost predicate Core(s: State, active: nat) {
    && s.slots.Valid()
    && s.slots.Permits() + |s.tasks| == active
    && s.queued == |s.slots.waiters| <= s.maxQueued
    && LookupsOk(s)
    && s.warm.Inv()
    && (s.tasks != map[] ==> s.warm.paused)
  }

  ghost predicate Inv(s: State, active: nat) {
    && Core(s, active)
    && (Idle(s) && !s.closing && !s.warm.closing ==> !s.warm.paused)
    && (!s.warm.paused && active > 0 ==> Idle(s))
  }

  lemma FreshInv(active: nat, maxQueued: nat)
    ensures Inv(Fresh(active, maxQueued), active)
  {
  }

  lemma AdmitKeeps(s: State, active: nat)
    requires active > 0 && Core(s, active - 1) && !s.closing
    ensures Inv(s.Admit(), active)
  {
  }

  lemma ResumeWhenIdleKeeps(s: State, active: nat)
    requires Core(s, active) && (!s.warm.paused && active > 0 ==> Idle(s))
    ensures Inv(s.ResumeWhenIdle(), active)
  {
    W.ResumeKeeps(s.warm);
  }

  /** While nothing is owned or queued, a permit can be taken immediately. */
  lemma IdleIsUnlocked(s: State, active: nat)
    requires Core(s, active) && active > 0 && Idle(s)
    ensures !s.slots.Locked()
  {
  }

  lemma QueueUp(s: State, active: nat)
    requires Core(s, active) && s.slots.Locked() && s.queued < s.maxQueued
    ensures Core(s.(queued := s.queued + 1, slots := s.slots.(waiters := s.slots.waiters + [Pending])), active)
  {
  }

  lemma ArriveKeeps(s: State, active: nat)
    requires Inv(s, active)
    ensures Inv(s.Arrive(), active)
  {
    if s.Refuses() {
    } else if s.slots.Locked() {
      QueueUp(s, active);
      if active > 0 && Idle(s) {
        IdleIsUnlocked(s, active);
      }
    } else {
      AdmitKeeps(s.(slots := s.slots.(value := s.slots.value - 1)), active);
    }
  }

  lemma ProceedKeeps(s: State, active: nat, i: nat)
    requires Inv(s, active) && i < |s.slots.waiters| && s.slots.waiters[i] != Pending
    ensures Inv(s.Proceed(i), active)
  {
    LeaveKeeps(s.slots, i);
    var r := s.(slots := s.slots.Leave(i), queued := s.queued - 1);
    if s.slots.waiters[i] != Granted {
      ResumeWhenIdleKeeps(r, active);
    } else if s.closing {
      ReleaseKeeps(r.slots);
    } else {
      AdmitKeeps(r, active);
    }
  }

  lemma FinishedKeeps(s: State, active: nat, t: nat)
    requires Inv(s, active) && t in s.tasks
    ensures Inv(s.Finished(t), active)
  {
    ReleaseKeeps(s.slots);
    assert s.tasks.Keys == (s.tasks - {t}).Keys + {t};
    ResumeWhenIdleKeeps(s.(tasks := s.tasks - {t}, slots := s.slots.Release()), active);
  }

  lemma SameLookups(s: State, r: State, active: nat)
    requires Inv(s, active) && r == s.(tasks := r.tasks, closing := r.closing) && (s.closing ==> r.closing)
    requires r.tasks.Keys == s.tasks.Keys && LookupsOk(r)
    ensures Inv(r, active)
  {
  }

  lemma CancelWaiterKeepsInv(s: State, active: nat, i: nat)
    requires Inv(s, active) && i < |s.slots.waiters|
    ensures Inv(s.(slots := s.slots.CancelWaiter(i)), active)
  {
    CancelWaiterKeeps(s.slots, i);
  }

  /** What the warmup does by itself, or the signal to it. */
  lemma WarmupKeeps(s: State, active: nat, w: W.State)
    requires Inv(s, active) && w.Inv() && (s.warm.paused ==> w.paused) && (s.warm.closing ==> w.closing)
    requires w.paused != s.warm.paused ==> w.closing
    ensures Inv(s.(warm := w), active)
  {
  }

  /** The steps that change only what is known about the owned lookups, or close the supervisor. */
  lemma LookupsStepKeeps(s: State, active: nat, e: Event)
    requires Inv(s, active) && Enabled(s, e) && (e.Interrupt? || e.Abandon? || e.LookupEnds? || e.Close?)
    ensures Inv(Step(s, e), active)
  {
    SameLookups(s, Step(s, e), active);
  }

  lemma StepKeeps(s: State, active: nat, e: Event)
    requires Inv(s, active) && Enabled(s, e)
    ensures Inv(Step(s, e), active)
  {
    match e
    case Arrive => ArriveKeeps(s, active);
    case CancelWaiter(i) => CancelWaiterKeepsInv(s, active, i);
    case Proceed(i) => ProceedKeeps(s, active, i);
    case LookupReported(t) => FinishedKeeps(s, active, t);
    case WarmupEnds(j, cancelled) =>
      W.EndKeeps(s.warm, j, cancelled);
      WarmupKeeps(s, active, s.warm.End(j, cancelled));
    case WarmupReported(j) =>
      W.FinishedKeeps(s.warm, j);
      WarmupKeeps(s, active, s.warm.Finished(j));
    case Signal =>
      W.CancelKeeps(s.warm);
      WarmupKeeps(s, active, s.warm.Cancel());
    case _ => LookupsStepKeeps(s, active, e);
  }

  lemma {:induction false} RunKeeps(s: State, active: nat, es: seq<Event>)
    requires Inv(s, active) && IsRun(s, es)
    ensures Inv(End(s, es), active)
    decreases |es|
  {
    if es != [] {
      StepKeeps(s, active, es[0]);
      RunKeeps(Step(s, es[0]), active, es[1..]);
    }
  }

  lemma ReachableInv(active: nat, maxQueued: nat, s: State)
    requires Reachable(active, maxQueued, s)
    ensures Inv(s, active)
  {
    var es :| IsRun(Fresh(active, maxQueued), es) && End(Fresh(active, maxQueued), es) == s;
    FreshInv(active, maxQueued);
    RunKeeps(Fresh(active, maxQueued), active, es);
  }

  /** Does step `e` call the warmup's `resume`? */
  predicate Resumes(s: State, e: Event)
    requires Enabled(s, e)
  {
    match e
    case Proceed(i) => s.slots.waiters[i] != Granted && !s.closing && s.tasks == map[] && s.queued == 1
    case LookupReported(t) => !s.closing && s.tasks - {t} == map[] && s.queued == 0
    case WarmupReported(j) => s.warm.jobs[j].task.cancelled && !s.warm.paused
    case _ => false
  }

  /** The warmup at that call. */
  function AtResume(s: State, e: Event): W.State
    requires Enabled(s, e) && Resumes(s, e)
  {
    match e
    case WarmupReported(j) => s.warm.(jobs := s.warm.jobs[j := s.warm.jobs[j].(reported := true)])
    case _ => s.warm
  }

  /** Step `e`, with the shutdown signal landing at point `p` of its call of `resume`. */
  function StepSignalled(s: State, e: Event, p: W.Point): State
    requires Enabled(s, e) && Resumes(s, e)
  {
    Step(s, e).(warm := W.ResumeSignalled(AtResume(s, e), p))
  }

  /** These are the steps that resume, and no other starts a job. */
  lemma ResumesExactly(s: State, e: Event)
    requires Enabled(s, e)
    ensures if Resumes(s, e) then Step(s, e).warm == AtResume(s, e).Resume()
            else |Step(s, e).warm.jobs| == |s.warm.jobs|
  {
  }

  /** A step does at most one thing to the warmup, and that is something its own runs can do. */
  lemma StepOfWarmup(s: State, e: Event) returns (ops: seq<W.Op>)
    requires Enabled(s, e)
    ensures |ops| <= 1 && W.IsRun(s.warm, ops) && W.After(s.warm, ops) == Step(s, e).warm
  {
    var w := Step(s, e).warm;
    ops :=
      if w == s.warm then []
      else match e
           case WarmupEnds(j, cancelled) => [W.End(j, cancelled)]
           case WarmupReported(j) => [W.Report(j)]
           case Signal => [W.Cancel]
           case _ => if w == s.warm.Pause() then [W.Pause] else [W.Resume];
    if ops != [] {
      assert W.After(W.Do(s.warm, ops[0]), ops[1..]) == W.Do(s.warm, ops[0]);
    }
  }
}
