/** `BackgroundWarmup`: optional work that is paused, resumed and restarted around foreground lookups. */
module Warmup {
  import opened Asyncio
  import opened Basics

  /** One start of the work; `reported` once its done-callback has run. */
  datatype Job = Job(task: Task, reported: bool)

  /** The warmup with every job it ever started, oldest first. `task` in the program is the last one. */
  datatype State = State(jobs: seq<Job>, paused: bool, closing: bool, completed: bool) {
    predicate HasJob() {
      jobs != []
    }

    function Last(): Job
      requires HasJob()
    {
      jobs[|jobs| - 1]
    }

    predicate Unfinished() {
      HasJob() && Last().task.Running?
    }

    function Pause(): State {
      var w := this.(paused := true);
      if HasJob() then w.(jobs := jobs[|jobs| - 1 := Last().(task := Last().task.Cancel())]) else w
    }

    function Start(): State {
      this.(jobs := jobs + [Job(Running(false), false)])
    }

    function Resume(): State {
      var w := this.(paused := false);
      if closing || completed || Unfinished() then w
      else if HasJob() && !Last().task.cancelled then w.(completed := true)
      else w.Start()
    }

    function Cancel(): State {
      this.(closing := true).Pause()
    }

    /** Job `j`'s task stops, for whatever reason; the event loop will run its callback later. */
    function End(j: nat, cancelled: bool): State
      requires j < |jobs|
    {
      this.(jobs := jobs[j := Job(Done(cancelled), false)])
    }

    predicate CanReport(j: nat) {
      j < |jobs| && jobs[j].task.Done? && !jobs[j].reported
    }

    /** The event loop runs `_finished` for job `j`. */
    function Finished(j: nat): State
      requires CanReport(j)
    {
      var w := this.(jobs := jobs[j := jobs[j].(reported := true)]);
      if !jobs[j].task.cancelled then w.(completed := true)
      else if !paused then w.Resume()
      else w
    }

    /** What every interleaving keeps. */
    ghost predicate Inv() {
      // Work is started again only after it was cancelled, and only when nothing else is unfinished.
      && (forall j :: 0 <= j < |jobs| - 1 ==> jobs[j].task == Done(true))
      && (forall j :: 0 <= j < |jobs| && jobs[j].reported ==> jobs[j].task.Done?)
      && (completed ==> HasJob() && Last().task == Done(false))
      && (HasJob() && Last().task == Done(false) && Last().reported ==> completed)
      // Pausing or closing leaves no unfinished job without a cancel request.
      && (paused || closing ==> HasJob() ==> Last().task != Running(false))
      // Resuming is never lost.
      && (!paused && !closing ==> HasJob() && (completed || Unfinished() || !Last().reported))
    }
  }

  const FRESH := State([], true, false, false)

  lemma PauseKeeps(w: State)
    requires w.Inv()
    ensures w.Pause().Inv() && w.Pause().paused && |w.Pause().jobs| == |w.jobs|
  {
  }

  lemma ResumeKeeps(w: State)
    requires w.Inv()
    ensures w.Resume().Inv() && !w.Resume().paused
    ensures !w.closing ==> w.Resume().completed || w.Resume().Unfinished()
    ensures w.closing ==> |w.Resume().jobs| == |w.jobs|
  {
  }

  lemma CancelKeeps(w: State)
    requires w.Inv()
    ensures w.Cancel().Inv() && w.Cancel().closing && |w.Cancel().jobs| == |w.jobs|
  {
  }

  lemma EndKeeps(w: State, j: nat, cancelled: bool)
    requires w.Inv() && j < |w.jobs| && w.jobs[j].task.Running?
    ensures w.End(j, cancelled).Inv()
  {
  }

  /** A late callback changes nothing it should not: with the warmup resumed and open, it leaves the work
      completed or running; with the warmup paused, it starts nothing. */
  lemma FinishedKeeps(w: State, j: nat)
    requires w.Inv() && w.CanReport(j)
    ensures var r := w.Finished(j);
      && r.Inv() && r.paused == w.paused && r.closing == w.closing && !r.CanReport(j)
      && (!w.paused && !w.closing ==> r.completed || r.Unfinished())
      && (w.paused || w.closing ==> |r.jobs| == |w.jobs|)
  {
  }

  // ------------------------------------------------------------------------ any run of the object alone

  /** What can happen to the object: its methods are called, a job's task stops, a callback runs. */
  datatype Op = Pause | Resume | Cancel | End(j: nat, cancelled: bool) | Report(j: nat)

  predicate Can(w: State, op: Op) {
    match op
    case End(j, _) => j < |w.jobs| && w.jobs[j].task.Running?
    case Report(j) => w.CanReport(j)
    case _ => true
  }

  function Do(w: State, op: Op): State
    requires Can(w, op)
  {
    match op
    case Pause => w.Pause()
    case Resume => w.Resume()
    case Cancel => w.Cancel()
    case End(j, cancelled) => w.End(j, cancelled)
    case Report(j) => w.Finished(j)
  }

  ghost predicate IsRun(w: State, ops: seq<Op>)
    decreases |ops|
  {
    ops == [] || (Can(w, ops[0]) && IsRun(Do(w, ops[0]), ops[1..]))
  }

  function After(w: State, ops: seq<Op>): State
    requires IsRun(w, ops)
    decreases |ops|
  {
    if ops == [] then w else After(Do(w, ops[0]), ops[1..])
  }

  lemma DoKeeps(w: State, op: Op)
    requires w.Inv() && Can(w, op)
    ensures Do(w, op).Inv()
  {
    match op
    case Pause => PauseKeeps(w);
    case Resume => ResumeKeeps(w);
    case Cancel => CancelKeeps(w);
    case End(j, cancelled) => EndKeeps(w, j, cancelled);
    case Report(j) => FinishedKeeps(w, j);
  }

  /** A job is asked to cancel by `pause` or `cancel` alone, and only the current one; nothing else touches a
      job's task but its own end. */
  lemma OnlyPauseAsks(w: State, op: Op, j: nat)
    requires w.Inv() && Can(w, op) && j < |w.jobs| && (op.End? ==> op.j != j)
    ensures j < |Do(w, op).jobs|
    ensures Do(w, op).jobs[j].task ==
      if (op.Pause? || op.Cancel?) && w.jobs[j].task.Running? then Running(true) else w.jobs[j].task
  {
  }

  lemma {:induction false} RunKeeps(w: State, ops: seq<Op>)
    requires w.Inv() && IsRun(w, ops)
    ensures After(w, ops).Inv()
    decreases |ops|
  {
    if ops != [] {
      DoKeeps(w, ops[0]);
      RunKeeps(Do(w, ops[0]), ops[1..]);
    }
  }

  /** However the object is paused, resumed and cancelled, and however late callbacks run: no two jobs are
      unfinished, every job but the last was cancelled, and an open, resumed object has its work completed,
      running, or about to be completed or restarted by a callback. */
  lemma RestartsSafely(ops: seq<Op>)
    requires IsRun(FRESH, ops)
    ensures var w := After(FRESH, ops);
      && (forall j :: 0 <= j < |w.jobs| - 1 ==> w.jobs[j].task == Done(true))
      && (!w.paused && !w.closing ==> w.HasJob() && (w.completed || w.Unfinished() || w.CanReport(|w.jobs| - 1)))
      && ((w.paused || w.closing) && w.Unfinished() ==> w.Last().task == Running(true))
  {
    RunKeeps(FRESH, ops);
  }

  /** Work that ended without being cancelled is never started again, even if `resume` comes before its
      callback; nothing is started after `cancel`. */
  lemma {:induction false} NeverStartedAgain(w: State, ops: seq<Op>)
    requires w.Inv() && IsRun(w, ops)
    requires w.closing || (w.HasJob() && w.Last().task == Done(false))
    ensures |After(w, ops).jobs| == |w.jobs|
    decreases |ops|
  {
    if ops != [] {
      DoKeeps(w, ops[0]);
      NeverStartedAgain(Do(w, ops[0]), ops[1..]);
    }
  }

  /** One operation that starts a job starts one, on an open, resumed object that is not completed, and
      whose jobs so far were all cancelled. */
  lemma StartsAfterCancelled(w: State, ops: seq<Op>)
    requires w.Inv() && |ops| <= 1 && IsRun(w, ops) && |After(w, ops).jobs| != |w.jobs|
    ensures var r := After(w, ops);
      && !r.paused && !w.closing && !r.closing && !w.completed
      && |r.jobs| == |w.jobs| + 1 && r.Last() == Job(Running(false), false)
    ensures forall j :: 0 <= j < |w.jobs| ==> w.jobs[j].task == Done(true)
  {
  }

  // ------------------------------------------------------------------- a signal in the middle of `resume`

  /** The current job runs and nobody has asked it to stop. */
  predicate Unasked(w: State) {
    w.HasJob() && w.Last().task == Running(false)
  }

  /** After `cancel`, however the object got there, no job starts, and one that nobody asked to stop is
      asked by the next `pause` or `cancel`. */
  lemma {:induction false} ClosedForGood(w: State, ops: seq<Op>)
    requires IsRun(w, ops) && w.closing
    ensures After(w, ops).closing && |After(w, ops).jobs| == |w.jobs|
    ensures Unasked(After(w, ops)) ==> Unasked(w) && Pause !in ops && Cancel !in ops
    decreases |ops|
  {
    if ops != [] {
      ClosedForGood(Do(w, ops[0]), ops[1..]);
    }
  }

  /** The places in `resume` where the signal's handler makes a difference: on entry, once `paused` is
      cleared, once the conditions have been looked at, once the new task is stored. */
  datatype Point = OnEntry | Unpaused | Checked | Stored

  function Handler(w: State, here: bool): State {
    if here then w.Cancel() else w
  }

  /** `resume`, statement by statement, with the handler calling `cancel` at `p`. */
  function ResumeSignalled(w: State, p: Point): State {
    var v := Handler(Handler(w, p == OnEntry).(paused := false), p == Unpaused);
    if v.closing || v.completed || v.Unfinished() then Handler(v, p == Checked || p == Stored)
    else
      var u := Handler(v, p == Checked);
      Handler(if v.HasJob() && !v.Last().task.cancelled then u.(completed := true) else u.Start(), p == Stored)
  }

  /** Would `resume` start the work? Not after the work has ended or while it runs on, nor once closing. */
  predicate Starts(w: State) {
    !w.closing && !w.completed && (w.HasJob() ==> w.Last().task == Done(true))
  }

  /** Wherever in `resume` the signal lands, nothing starts once that call is over. A job runs on that nobody
      has asked to stop if and only if the signal landed after the check that let the work start and before
      the new task was stored, and then until the next `pause` or `cancel`. */
  lemma SignalInsideResume(w: State, p: Point, ops: seq<Op>)
    requires IsRun(ResumeSignalled(w, p), ops)
    ensures var r := ResumeSignalled(w, p);
      && r.closing && |After(r, ops).jobs| == |r.jobs|
      && (Unasked(r) <==> p == Checked && Starts(w))
      && (Unasked(After(r, ops)) ==> Unasked(r) && Pause !in ops && Cancel !in ops)
  {
    ClosedForGood(ResumeSignalled(w, p), ops);
  }

  /** The program's object: fields updated in place. `jobs` is the event loop's record of the tasks the
      object created, and `task` names the current one. */
  class BackgroundWarmup {
    var jobs: seq<Job>
    var task: Option<nat>
    var paused: bool
    var closing: bool
    var completed: bool

    ghost predicate Valid()
      reads this
    {
      task == if jobs == [] then None else Some(|jobs| - 1)
    }

    ghost function Model(): State
      reads this
    {
      State(jobs, paused, closing, completed)
    }

    constructor ()
      ensures Valid() && Model() == FRESH
    {
      jobs, task := [], None;
      paused, closing, completed := true, false, false;
    }

    method Pause()
      requires Valid()
      modifies this
      ensures Valid() && Model() == old(Model()).Pause()
    {
      paused := true;
      if task.Some? {
        var t := task.value;
        jobs := jobs[t := jobs[t].(task := jobs[t].task.Cancel())];
      }
    }

    method Resume()
      requires Valid()
      modifies this
      ensures Valid() && Model() == old(Model()).Resume()
    {
      paused := false;
      if closing || completed || (task.Some? && !jobs[task.value].task.Done?) {
        return;
      }
      if task.Some? && !jobs[task.value].task.cancelled {
        completed := true;
        return;
      }
      task := Some(|jobs|);
      jobs := jobs + [Job(Running(false), false)];
    }

    /** The callback of job `j`. */
    method Finished(j: nat)
      requires Valid() && Model().CanReport(j)
      modifies this
      ensures Valid() && Model() == old(Model()).Finished(j)
    {
      jobs := jobs[j := jobs[j].(reported := true)];
      if !jobs[j].task.cancelled {
        completed := true;
      } else if !paused {
        Resume();
      }
    }

    method Cancel()
      requires Valid()
      modifies this
      ensures Valid() && Model() == old(Model()).Cancel()
    {
      closing := true;
      Pause();
    }
  }
}
