/** The part of Python 3.12's asyncio that the service relies on, as a contract:
    tasks as their holders see them, and the FIFO semaphore. */
module Asyncio {
  import opened Basics

  /** A task. `asked` says that `Task.cancel` has been called while it was running; a running task may
      take any time to react, and may end either way. */
  datatype Task = Running(asked: bool) | Done(cancelled: bool) {
    function Cancel(): Task {
      if Running? then Running(true) else this
    }
  }

  /** A caller suspended inside `Semaphore.acquire`, as its future shows it. `Withdrawn` is a caller that
      was cancelled after its permit had been granted, and has not resumed yet. */
  datatype Waiter = Pending | Granted | Cancelled | Withdrawn

  /** Permits set aside for callers that have not resumed yet. */
  function Held(ws: seq<Waiter>): nat {
    multiset(ws)[Granted] + multiset(ws)[Withdrawn]
  }

  /** Index of the first pending waiter, or `|ws|`. */
  function FirstPending(ws: seq<Waiter>): (k: nat)
    ensures k <= |ws|
    ensures k < |ws| ==> ws[k] == Pending
    ensures forall i :: 0 <= i < k ==> ws[i] != Pending
    ensures k == |ws| <==> Pending !in ws
  {
    if ws == [] then 0 else if ws[0] == Pending then 0 else 1 + FirstPending(ws[1..])
  }

  /** Grants are made in arrival order: nobody is granted a permit behind somebody still pending. */
  ghost predicate Fifo(ws: seq<Waiter>) {
    forall i, j :: 0 <= i < j < |ws| && ws[i] == Pending ==> ws[j] != Granted && ws[j] != Withdrawn
  }

  datatype Semaphore = Semaphore(value: nat, waiters: seq<Waiter>) {
    /** A permit cannot be taken immediately: none is free, or somebody whose future was not cancelled
        is ahead. */
    predicate Locked() {
      value == 0 || exists w :: w in waiters && w != Cancelled
    }

    /** Give the permit at hand to the first pending waiter, if there is one. */
    function WakeNext(): Semaphore
      requires value > 0
    {
      var k := FirstPending(waiters);
      if k < |waiters| then Semaphore(value - 1, waiters[k := Granted]) else this
    }

    function Release(): Semaphore {
      Semaphore(value + 1, waiters).WakeNext()
    }

    /** What a resuming waiter does last: hand out spare permits while somebody wants one. */
    function HandOut(): Semaphore
      decreases value
    {
      if value > 0 && Pending in waiters then WakeNext().HandOut() else this
    }

    /** A waiter whose future is done leaves `acquire`; one that was cancelled after its grant gives the
        permit back first. */
    function Leave(i: nat): Semaphore
      requires i < |waiters|
    {
      Semaphore(if waiters[i] == Withdrawn then value + 1 else value, Remove(waiters, i)).HandOut()
    }

    /** A waiter's task is cancelled. */
    function CancelWaiter(i: nat): Semaphore
      requires i < |waiters|
    {
      match waiters[i]
      case Pending => Semaphore(value, waiters[i := Cancelled])
      case Granted => Semaphore(value, waiters[i := Withdrawn])
      case _ => this
    }

    function Permits(): nat {
      value + Held(waiters)
    }

    /** No permit lies idle while a pending waiter has nobody in front of it to pass one on. */
    ghost predicate Valid() {
      && Fifo(waiters)
      && (value > 0 && Pending in waiters ==> Held(waiters) > 0)
    }
  }

  /** How far the waiters are from being gone: a grant, a cancellation and a departure all lower it. */
  function Load(ws: seq<Waiter>): nat {
    var m := multiset(ws);
    6 * m[Pending] + 5 * m[Granted] + m[Cancelled] + m[Withdrawn]
  }

  function Weight(w: Waiter): nat {
    match w
    case Pending => 6
    case Granted => 5
    case Cancelled => 1
    case Withdrawn => 1
  }

  function HeldBy(w: Waiter): nat {
    if w == Granted || w == Withdrawn then 1 else 0
  }

  function One(b: bool): nat {
    if b then 1 else 0
  }

  lemma UpdateMultiset(ws: seq<Waiter>, i: nat, w: Waiter)
    requires i < |ws|
    ensures forall x :: multiset(ws[i := w])[x] == multiset(ws)[x] - One(x == ws[i]) + One(x == w)
  {
  }

  lemma UpdateCounts(ws: seq<Waiter>, i: nat, w: Waiter)
    requires i < |ws|
    ensures Held(ws[i := w]) == Held(ws) - HeldBy(ws[i]) + HeldBy(w)
    ensures Load(ws[i := w]) == Load(ws) - Weight(ws[i]) + Weight(w)
  {
    UpdateMultiset(ws, i, w);
  }

  lemma RemoveCounts(ws: seq<Waiter>, i: nat)
    requires i < |ws|
    ensures Held(Remove(ws, i)) == Held(ws) - HeldBy(ws[i])
    ensures Load(Remove(ws, i)) == Load(ws) - Weight(ws[i])
  {
    assert ws == ws[..i] + [ws[i]] + ws[i + 1..];
    assert multiset(Remove(ws, i)) == multiset(ws) - multiset{ws[i]};
  }

  lemma RemoveFifo(ws: seq<Waiter>, i: nat)
    requires i < |ws| && Fifo(ws)
    ensures Fifo(Remove(ws, i))
  {
  }

  lemma WakeNextKeeps(s: Semaphore)
    requires s.value > 0 && Fifo(s.waiters)
    ensures Fifo(s.WakeNext().waiters)
    ensures s.WakeNext().Permits() == s.Permits()
    ensures |s.WakeNext().waiters| == |s.waiters|
    ensures Load(s.WakeNext().waiters) <= Load(s.waiters)
    ensures Pending in s.waiters ==> s.WakeNext().value == s.value - 1 && Held(s.WakeNext().waiters) > 0
    ensures Pending !in s.waiters ==> s.WakeNext() == s
  {
  }

  lemma {:induction false} HandOutKeeps(s: Semaphore)
    requires Fifo(s.waiters)
    ensures var r := s.HandOut();
      && r.Valid() && (r.value == 0 || Pending !in r.waiters)
      && r.Permits() == s.Permits() && |r.waiters| == |s.waiters| && Load(r.waiters) <= Load(s.waiters)
    decreases s.value
  {
    if s.value > 0 && Pending in s.waiters {
      WakeNextKeeps(s);
      HandOutKeeps(s.WakeNext());
    }
  }

  /** What handing out permits can do to one caller: grant it one, if it is pending. */
  predicate Grants(w: Waiter, after: Waiter) {
    after == w || (w == Pending && after == Granted)
  }

  lemma {:induction false} HandOutGrants(s: Semaphore, i: nat)
    requires i < |s.waiters|
    ensures |s.HandOut().waiters| == |s.waiters| && Grants(s.waiters[i], s.HandOut().waiters[i])
    decreases s.value
  {
    if s.value > 0 && Pending in s.waiters {
      HandOutGrants(s.WakeNext(), i);
    }
  }

  lemma ReleaseKeeps(s: Semaphore)
    requires s.Valid()
    ensures s.Release().Valid() && s.Release().Permits() == s.Permits() + 1
    ensures |s.Release().waiters| == |s.waiters| && Load(s.Release().waiters) <= Load(s.waiters)
  {
    WakeNextKeeps(Semaphore(s.value + 1, s.waiters));
  }

  /** The semaphore once waiter `i` has left it, before spare permits are handed out. */
  function Left(s: Semaphore, i: nat): Semaphore
    requires i < |s.waiters|
  {
    Semaphore(if s.waiters[i] == Withdrawn then s.value + 1 else s.value, Remove(s.waiters, i))
  }

  lemma LeftKeeps(s: Semaphore, i: nat)
    requires Fifo(s.waiters) && i < |s.waiters|
    ensures Fifo(Left(s, i).waiters) && Left(s, i).HandOut() == s.Leave(i)
    ensures Left(s, i).Permits() == s.Permits() - (if s.waiters[i] == Granted then 1 else 0)
    ensures Load(Left(s, i).waiters) == Load(s.waiters) - Weight(s.waiters[i])
  {
    RemoveCounts(s.waiters, i);
    RemoveFifo(s.waiters, i);
  }

  /** A waiter that resumes keeps its permit if it was granted one and not cancelled; otherwise every
      permit stays in the semaphore. */
  lemma LeaveKeeps(s: Semaphore, i: nat)
    requires s.Valid() && i < |s.waiters| && s.waiters[i] != Pending
    ensures var r := s.Leave(i);
      && r.Valid() && |r.waiters| == |s.waiters| - 1
      && r.Permits() == s.Permits() - (if s.waiters[i] == Granted then 1 else 0)
      && Load(r.waiters) <= Load(s.waiters) - Weight(s.waiters[i])
  {
    LeftKeeps(s, i);
    HandOutKeeps(Left(s, i));
  }

  lemma CancelWaiterKeeps(s: Semaphore, i: nat)
    requires s.Valid() && i < |s.waiters|
    ensures s.CancelWaiter(i).Valid() && s.CancelWaiter(i).Permits() == s.Permits()
    ensures |s.CancelWaiter(i).waiters| == |s.waiters|
    ensures s.waiters[i] in {Pending, Granted} ==> Load(s.CancelWaiter(i).waiters) < Load(s.waiters)
  {
    var w := if s.waiters[i] == Pending then Cancelled else Withdrawn;
    if s.waiters[i] in {Pending, Granted} {
      UpdateCounts(s.waiters, i, w);
      UpdateFifo(s.waiters, i, w);
    }
  }

  lemma UpdateFifo(ws: seq<Waiter>, i: nat, w: Waiter)
    requires i < |ws| && Fifo(ws)
    requires w == Cancelled || (w == Withdrawn && ws[i] == Granted)
    ensures Fifo(ws[i := w]) && (Pending in ws[i := w] ==> Pending in ws)
  {
  }
}
