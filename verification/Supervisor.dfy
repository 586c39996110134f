/** `LookupSupervisor`, wired to the warmup as the server wires it: `on_active` pauses, `on_idle` resumes. */
module Supervisor {
  import opened Asyncio
  import W = Warmup

  /** The caller that started a lookup: awaiting it, cancelled but not resumed yet, or gone. */
  datatype Owner = Awaiting | Interrupted | Gone

  /** A lookup in `tasks`: its task, and whoever awaits it. */
  datatype Lookup = Lookup(task: Task, owner: Owner)

  /** `queued` is an integer, so that going below zero would show. `started` numbers the lookups. */
  datatype State = State(
    slots: Semaphore,
    maxQueued: nat,
    queued: int,
    tasks: map<nat, Lookup>,
    started: nat,
    closing: bool,
    warm: W.State)
  {
    predicate Refuses() {
      closing || (slots.Locked() && queued >= maxQueued)
    }

    /** A caller holding a permit starts its lookup. */
    function Admit(): State {
      this.(warm := warm.Pause(), tasks := tasks[started := Lookup(Running(false), Awaiting)], started := started + 1)
    }

    function ResumeWhenIdle(): State {
      if !closing && tasks == map[] && queued == 0 then this.(warm := warm.Resume()) else this
    }

    /** A caller enters `run` and goes on to its first suspension, or is refused. */
    function Arrive(): State {
      if Refuses() then this
      else if slots.Locked() then this.(queued := queued + 1, slots := slots.(waiters := slots.waiters + [Pending]))
      else this.(slots := slots.(value := slots.value - 1)).Admit()
    }

    /** The caller in place `i` of the semaphore's queue, its future done, runs on to its next suspension. */
    function Proceed(i: nat): State
      requires i < |slots.waiters|
    {
      var s := this.(slots := slots.Leave(i), queued := queued - 1);
      if slots.waiters[i] != Granted then s.ResumeWhenIdle()
      else if closing then s.(slots := s.slots.Release())
      else s.Admit()
    }

    /** The caller of lookup `t`, cancelled while it awaited, resumes: it cancels the lookup and leaves. */
    function Abandon(t: nat): State
      requires t in tasks
    {
      this.(tasks := tasks[t := Lookup(tasks[t].task.Cancel(), Gone)])
    }

    /** The event loop runs `_finished` for lookup `t`. */
    function Finished(t: nat): State
      requires t in tasks
    {
      this.(tasks := tasks - {t}, slots := slots.Release()).ResumeWhenIdle()
    }

    function Cancel(): State {
      this.(closing := true, tasks := map t | t in tasks :: tasks[t].(task := tasks[t].task.Cancel()))
    }
  }

  function Fresh(active: nat, maxQueued: nat): State {
    State(Semaphore(active, []), maxQueued, 0, map[], 0, false, W.FRESH.Resume())
  }

  /** The program's object: fields updated in place, callbacks bound to one warmup object. Cancelling or
      finishing tasks on the side is the event loop's doing and not a method here. */
  class LookupSupervisor {
    var slots: Semaphore
    const maxQueued: nat
    var queued: int
    var tasks: map<nat, Lookup>
    var started: nat
    var closing: bool
    const warmup: W.BackgroundWarmup

    ghost predicate Valid()
      reads this, warmup
    {
      warmup.Valid()
    }

    ghost function Model(): State
      reads this, warmup
    {
      State(slots, maxQueued, queued, tasks, started, closing, warmup.Model())
    }

    constructor (active: nat, maxQueued: nat, warmup: W.BackgroundWarmup)
      requires warmup.Valid()
      ensures Valid() && this.warmup == warmup
      ensures Model() == State(Semaphore(active, []), maxQueued, 0, map[], 0, false, warmup.Model())
    {
      slots, this.maxQueued, queued := Semaphore(active, []), maxQueued, 0;
      tasks, started, closing, this.warmup := map[], 0, false, warmup;
    }

    method StartLookup()
      requires Valid()
      modifies this`tasks, this`started, warmup
      ensures Valid() && Model() == old(Model()).Admit()
    {
      warmup.Pause();
      tasks := tasks[started := Lookup(Running(false), Awaiting)];
      started := started + 1;
    }

    /** `run`, up to the first suspension. */
    method Run() returns (refused: bool)
      requires Valid()
      modifies this, warmup
      ensures Valid() && Model() == old(Model()).Arrive()
      ensures refused == old(Model()).Refuses()
    {
      if closing || (slots.Locked() && queued >= maxQueued) {
        return true;
      }
      refused := false;
      queued := queued + 1;
      if slots.Locked() {
        slots := slots.(waiters := slots.waiters + [Pending]);
        return;
      }
      slots := slots.(value := slots.value - 1);
      queued := queued - 1;
      StartLookup();
    }

    /** `run`, from the end of `acquire` to the next suspension. */
    method RunAcquired(i: nat) returns (refused: bool)
      requires Valid() && i < |slots.waiters| && slots.waiters[i] != Pending
      modifies this, warmup
      ensures Valid() && Model() == old(Model()).Proceed(i)
      ensures refused == (old(slots.waiters[i]) == Granted && closing)
    {
      refused := false;
      var granted := slots.waiters[i] == Granted;
      slots := slots.Leave(i);
      queued := queued - 1;
      if !granted {
        ResumeWhenIdle();
      } else if closing {
        slots := slots.Release();
        refused := true;
      } else {
        StartLookup();
      }
    }

    /** `run`, when the caller is cancelled while it awaits lookup `t`. */
    method RunInterrupted(t: nat)
      requires Valid() && t in tasks
      modifies this
      ensures Valid() && Model() == old(Model()).Abandon(t)
    {
      tasks := tasks[t := Lookup(tasks[t].task.Cancel(), Gone)];
    }

    method Finished(t: nat)
      requires Valid() && t in tasks
      modifies this, warmup
      ensures Valid() && Model() == old(Model()).Finished(t)
    {
      tasks := tasks - {t};
      slots := slots.Release();
      ResumeWhenIdle();
    }

    method ResumeWhenIdle()
      requires Valid()
      modifies warmup
      ensures Valid() && Model() == old(Model()).ResumeWhenIdle()
    {
      if !closing && tasks == map[] && queued == 0 {
        warmup.Resume();
      }
    }

    method Cancel()
      requires Valid()
      modifies this
      ensures Valid() && Model() == old(Model()).Cancel()
    {
      closing := true;
      var todo := tasks.Keys;
      ghost var before := tasks;
      while todo != {}
        invariant Valid() && closing && unchanged(warmup) && unchanged(this`slots, this`queued, this`started)
        invariant todo <= tasks.Keys == before.Keys
        invariant forall t :: t in before ==>
          tasks[t] == if t in todo then before[t] else before[t].(task := before[t].task.Cancel())
        decreases |todo|
      {
        var t :| t in todo;
        tasks := tasks[t := tasks[t].(task := tasks[t].task.Cancel())];
        todo := todo - {t};
      }
    }
  }
}
