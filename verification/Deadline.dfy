/** `DeadlineMiddleware.__call__` and `_watch_client`: the application, a timer and the client race; the
    application's messages are buffered until the race is decided. */
module Deadline {
  import opened Basics

  /** The application's task: running (perhaps asked to cancel), returned, or ended by an exception or a
      cancellation. */
  datatype App = Running(asked: bool) | Returned | Raised {
    function Cancel(): App {
      if Running? then Running(true) else this
    }
  }

  /** What the client sends, and what it is sent. Bodies are numbered. */
  datatype Inbound = Request(body: nat) | Disconnect
  datatype Outbound = FromApp(message: nat) | TimeoutStart | TimeoutBody

  /** The watcher awaits the client, or awaits room in the queue for a message it holds, or has ended. */
  datatype Watcher = Listening | Putting(held: Inbound) | Stopped

  datatype Outcome = Replied | TimedOut | Gone | Failed

  /** Where the handler is suspended: racing, sending the buffer or the 504 from place `next` on, cleaning
      up, or nowhere any more. */
  datatype Phase =
    | Racing
    | Replying(next: nat)
    | Refusing(next: nat)
    | Cleaning(outcome: Outcome)
    | Over(outcome: Outcome)

  const GATEWAY_TIMEOUT := [TimeoutStart, TimeoutBody]

  function Relayed(messages: seq<nat>): seq<Outbound> {
    seq(|messages|, i requires 0 <= i < |messages| => FromApp(messages[i]))
  }

  /** `messages` is the buffer and `incoming` the one-slot queue. `sent`, `seen`, `taken` and `dropped` record
      what went to the client, came from it, was read by the application, and was thrown away. */
  datatype State = State(
    app: App,
    messages: seq<nat>,
    incoming: seq<Inbound>,
    watcher: Watcher,
    disconnected: bool,
    expired: bool,
    phase: Phase,
    sent: seq<Outbound>,
    seen: seq<Inbound>,
    taken: seq<Inbound>,
    dropped: seq<Inbound>)
  {
    function Collect(m: nat): State {
      this.(messages := messages + [m])
    }

    /** One turn of the watcher's loop: the client's message `m` has arrived. */
    function Watch(m: Inbound): State {
      var s := this.(seen := seen + [m]);
      if m == Disconnect then
        s.(disconnected := true, dropped := incoming, incoming := [m], watcher := Stopped)
      else if incoming == [] then s.(incoming := [m])
      else s.(watcher := Putting(m))
    }

    /** The race is over: the handler resumes and looks at who is done. */
    function Decide(): State {
      match app
      case Returned => this.(phase := Replying(0))
      case Raised => this.(phase := Cleaning(Failed))
      case Running(_) =>
        this.(app := app.Cancel(), phase := if disconnected then Cleaning(Gone) else Refusing(0))
    }

    /** The handler's next `send`, or the end of its sending. */
    function SendNext(): State {
      match phase
      case Replying(k) =>
        if k < |messages| then this.(sent := sent + [FromApp(messages[k])], phase := Replying(k + 1))
        else this.(phase := Cleaning(Replied))
      case Refusing(k) =>
        if k < |GATEWAY_TIMEOUT| then this.(sent := sent + [GATEWAY_TIMEOUT[k]], phase := Refusing(k + 1))
        else this.(phase := Cleaning(TimedOut))
      case _ => this
    }
  }

  datatype Event =
    | AppSends(m: nat)
    | AppReads
    | AppStops(returned: bool)
    | ClientSends(inbound: Inbound)
    | WatcherPuts             // room in the queue for the message held
    | WatcherFails            // the client's channel raises
    | TimerFires
    | Decides
    | Sends
    | SendFails               // the client's channel refuses a message
    | HandlerCancelled        // the server cancels the handler
    | Cleans                  // the watcher has been cancelled and has ended

  predicate Sending(s: State) {
    s.phase.Replying? || s.phase.Refusing?
  }

  predicate Enabled(s: State, e: Event) {
    match e
    case AppSends(_) => s.app.Running?
    case AppReads => s.app.Running? && s.incoming != []
    case AppStops(_) => s.app.Running?
    case ClientSends(_) => s.watcher == Listening && (s.phase.Racing? || Sending(s))
    case WatcherPuts => s.watcher.Putting? && s.incoming == [] && (s.phase.Racing? || Sending(s))
    case WatcherFails => s.watcher == Listening && (s.phase.Racing? || Sending(s))
    case TimerFires => s.phase.Racing?
    case Decides => s.phase.Racing? && (!s.app.Running? || s.watcher == Stopped || s.expired)
    case Sends => Sending(s)
    case SendFails => Sending(s)
    case HandlerCancelled => s.phase.Racing? || Sending(s)
    case Cleans => s.phase.Cleaning?
  }

  function Step(s: State, e: Event): State
    requires Enabled(s, e)
  {
    match e
    case AppSends(m) => s.Collect(m)
    case AppReads => s.(taken := s.taken + [s.incoming[0]], incoming := s.incoming[1..])
    case AppStops(returned) => s.(app := if returned then Returned else Raised)
    case ClientSends(m) => s.Watch(m)
    case WatcherPuts => s.(incoming := [s.watcher.held], watcher := Listening)
    case WatcherFails => s.(watcher := Stopped)
    case TimerFires => s.(expired := true)
    case Decides => s.Decide()
    case Sends => s.SendNext()
    case SendFails => s.(phase := Cleaning(Failed))
    case HandlerCancelled => s.(app := s.app.Cancel(), phase := Cleaning(Failed))
    case Cleans =>
      s.(dropped := if s.watcher.Putting? then [s.watcher.held] else s.dropped,
         watcher := Stopped,
         phase := Over(s.phase.outcome))
  }

  const FRESH := State(App.Running(false), [], [], Listening, false, false, Racing, [], [], [], [])

  ghost predicate IsRun(s: State, es: seq<Event>)
    decreases |es|
  {
    es == [] || (Enabled(s, es[0]) && IsRun(Step(s, es[0]), es[1..]))
  }

  function End(s: State, es: seq<Event>): State
    requires IsRun(s, es)
    decreases |es|
  {
    if es == [] then s else End(Step(s, es[0]), es[1..])
  }

  ghost predicate Reachable(s: State) {
    exists es :: IsRun(FRESH, es) && End(FRESH, es) == s
  }

  // ---------------------------------------------------------------------------------- the invariant

  /** What went to the client so far: the start of the buffer, or the start of the 504. */
  ghost predicate SentOk(s: State) {
    match s.phase
    case Racing => s.sent == []
    case Replying(k) => s.app.Returned? && s.sent <= Relayed(s.messages) && |s.sent| == k
    case Refusing(k) => s.app != Running(false) && s.sent <= GATEWAY_TIMEOUT && |s.sent| == k
    case Cleaning(o) => OutcomeOk(s, o)
    case Over(o) => OutcomeOk(s, o)
  }

  ghost predicate OutcomeOk(s: State, o: Outcome) {
    && s.app != Running(false)
    && match o
       case Replied => s.app.Returned? && s.sent == Relayed(s.messages)
       case TimedOut => s.sent == GATEWAY_TIMEOUT
       case Gone => s.sent == [] && s.disconnected
       case Failed => (s.app.Returned? && s.sent <= Relayed(s.messages)) || s.sent <= GATEWAY_TIMEOUT
  }

  /** The one-slot queue passes the client's messages on in order. Nothing is lost but what a disconnect
      pushes out, or what the watcher still holds when it is stopped. */
  ghost predicate QueueOk(s: State) {
    var through := s.taken + s.incoming;
    && |s.incoming| <= 1 && |s.dropped| <= 1
    && (s.dropped != [] ==> s.watcher == Stopped)
    && (!s.disconnected ==> s.seen == through + if s.watcher.Putting? then [s.watcher.held] else s.dropped)
    && (s.disconnected ==>
        && s.watcher == Stopped && through != [] && through[|through| - 1] == Disconnect
        && s.seen == through[..|through| - 1] + s.dropped + [Disconnect])
  }

  ghost predicate Inv(s: State) {
    SentOk(s) && QueueOk(s)
  }

  lemma WatchKeepsQueue(s: State, m: Inbound)
    requires QueueOk(s) && s.watcher == Listening
    ensures QueueOk(s.Watch(m))
  {
  }

  lemma ReadKeepsQueue(s: State)
    requires QueueOk(s) && s.incoming != []
    ensures QueueOk(Step(s.(app := Running(false)), AppReads))
  {
    assert s.taken + [s.incoming[0]] + s.incoming[1..] == s.taken + s.incoming;
  }

  lemma PutKeepsQueue(s: State)
    requires QueueOk(s) && Enabled(s, WatcherPuts)
    ensures QueueOk(Step(s, WatcherPuts))
  {
  }

  lemma CleanKeepsQueue(s: State)
    requires QueueOk(s) && Enabled(s, Cleans)
    ensures QueueOk(Step(s, Cleans))
  {
  }

  /** The queue and what passed through it are the same; the watcher may have stopped listening. */
  predicate SameQueue(s: State, r: State) {
    && s.seen == r.seen && s.taken == r.taken && s.incoming == r.incoming && s.dropped == r.dropped
    && s.disconnected == r.disconnected
    && (r.watcher == s.watcher || (s.watcher == Listening && r.watcher == Stopped))
  }

  lemma OthersKeepQueue(s: State, r: State)
    requires QueueOk(s) && SameQueue(s, r)
    ensures QueueOk(r)
  {
  }

  lemma OthersLeaveQueue(s: State, e: Event)
    requires Enabled(s, e) && !e.ClientSends? && !e.AppReads? && !e.WatcherPuts? && !e.Cleans?
    ensures SameQueue(s, Step(s, e))
  {
  }

  lemma QueueKeeps(s: State, e: Event)
    requires QueueOk(s) && Enabled(s, e)
    ensures QueueOk(Step(s, e))
  {
    if e.ClientSends? {
      WatchKeepsQueue(s, e.inbound);
    } else if e.AppReads? {
      ReadKeepsQueue(s);
    } else if e.WatcherPuts? {
      PutKeepsQueue(s);
    } else if e.Cleans? {
      CleanKeepsQueue(s);
    } else {
      OthersLeaveQueue(s, e);
      OthersKeepQueue(s, Step(s, e));
    }
  }

  /** The steps of the handler itself. */
  predicate OfHandler(e: Event) {
    e.Decides? || e.Sends? || e.SendFails? || e.HandlerCancelled? || e.Cleans?
  }

  lemma HandlerKeepsSent(s: State, e: Event)
    requires SentOk(s) && Enabled(s, e) && OfHandler(e)
    ensures SentOk(Step(s, e))
  {
  }

  lemma OthersKeepSent(s: State, e: Event)
    requires SentOk(s) && Enabled(s, e) && !OfHandler(e)
    ensures SentOk(Step(s, e))
  {
    var r := Step(s, e);
    assert r.phase == s.phase && r.sent == s.sent && (s.app.Returned? ==> r == s || r.app == s.app);
    assert s.disconnected ==> r.disconnected;
    assert s.app.Returned? ==> r.messages == s.messages;
    assert s.app != Running(false) ==> r.app != Running(false);
  }

  lemma SentKeeps(s: State, e: Event)
    requires SentOk(s) && Enabled(s, e)
    ensures SentOk(Step(s, e))
  {
    if OfHandler(e) {
      HandlerKeepsSent(s, e);
    } else {
      OthersKeepSent(s, e);
    }
  }

  lemma StepKeeps(s: State, e: Event)
    requires Inv(s) && Enabled(s, e)
    ensures Inv(Step(s, e))
  {
    QueueKeeps(s, e);
    SentKeeps(s, e);
  }

  lemma {:induction false} RunKeeps(s: State, es: seq<Event>)
    requires Inv(s) && IsRun(s, es)
    ensures Inv(End(s, es))
    decreases |es|
  {
    if es != [] {
      StepKeeps(s, es[0]);
      RunKeeps(Step(s, es[0]), es[1..]);
    }
  }

  lemma ReachableInv(s: State)
    requires Reachable(s)
    ensures Inv(s)
  {
    var es :| IsRun(FRESH, es) && End(FRESH, es) == s;
    RunKeeps(FRESH, es);
  }

  // --------------------------------------------------------------------------------------- theorems

  /** One response: the client gets the start of the buffer or the start of the 504, never parts of both;
      the buffer only from an application that returned, the 504 only once it was asked to cancel. */
  lemma OneResponse(s: State)
    requires Reachable(s)
    ensures s.sent <= Relayed(s.messages) || s.sent <= GATEWAY_TIMEOUT
    ensures forall i, m :: 0 <= i < |s.sent| && s.sent[i] == FromApp(m) ==>
      s.app.Returned? && i < |s.messages| && m == s.messages[i]
    ensures TimeoutStart in s.sent ==> s.app != Running(false)
  {
    ReachableInv(s);
  }

  function Sent(e: Event): seq<nat> {
    if e.AppSends? then [e.m] else []
  }

  function Said(e: Event): seq<Inbound> {
    if e.ClientSends? then [e.inbound] else []
  }

  /** What the application sent in a run, and what the client did. */
  function Collected(es: seq<Event>): seq<nat> {
    if es == [] then [] else Sent(es[0]) + Collected(es[1..])
  }

  function Heard(es: seq<Event>): seq<Inbound> {
    if es == [] then [] else Said(es[0]) + Heard(es[1..])
  }

  lemma StepRecords(s: State, e: Event)
    requires Enabled(s, e)
    ensures Step(s, e).messages == s.messages + Sent(e) && Step(s, e).seen == s.seen + Said(e)
  {
  }

  lemma StepNotices(s: State, e: Event)
    requires Enabled(s, e)
    ensures var r := Step(s, e);
      && (r.disconnected <==> s.disconnected || e == ClientSends(Disconnect))
      && (r.expired <==> s.expired || e == TimerFires)
      && (r.app.Returned? <==> s.app.Returned? || e == AppStops(true))
      && (r.app.Raised? <==> s.app.Raised? || e == AppStops(false))
  {
  }

  /** The state records these, in order. */
  lemma {:induction false} Recorded(s: State, es: seq<Event>)
    requires IsRun(s, es)
    ensures End(s, es).messages == s.messages + Collected(es)
    ensures End(s, es).seen == s.seen + Heard(es)
    decreases |es|
  {
    if es != [] {
      var r, rest := Step(s, es[0]), es[1..];
      StepRecords(s, es[0]);
      Recorded(r, rest);
      Regroup(s.messages, Sent(es[0]), Collected(rest));
      Regroup(s.seen, Said(es[0]), Heard(rest));
    }
  }

  /** So do the flags: a disconnect is noticed when it comes and never otherwise, and likewise the timer and the
      end of the application. */
  lemma {:induction false} Noticed(s: State, es: seq<Event>)
    requires IsRun(s, es)
    ensures End(s, es).disconnected <==> s.disconnected || Disconnect in Heard(es)
    ensures End(s, es).expired <==> s.expired || TimerFires in es
    ensures End(s, es).app.Returned? <==> s.app.Returned? || AppStops(true) in es
    ensures End(s, es).app.Raised? <==> s.app.Raised? || AppStops(false) in es
    decreases |es|
  {
    if es != [] {
      StepNotices(s, es[0]);
      Noticed(Step(s, es[0]), es[1..]);
      assert forall e :: e in es <==> e == es[0] || e in es[1..];
    }
  }

  lemma Ended(s: State)
    requires Inv(s) && s.phase.Over?
    ensures s.phase.outcome == Replied ==> s.sent == Relayed(s.messages)
    ensures s.phase.outcome == TimedOut ==> s.sent == GATEWAY_TIMEOUT
    ensures s.phase.outcome == Gone ==> s.sent == [] && s.disconnected
    ensures s.app != Running(false)
  {
  }

  lemma {:induction false} OverIsCleaned(s: State, es: seq<Event>)
    requires IsRun(s, es) && End(s, es).phase.Over? && (s.phase.Over? ==> s.watcher == Stopped)
    ensures End(s, es).watcher == Stopped
    decreases |es|
  {
    if es != [] {
      OverIsCleaned(Step(s, es[0]), es[1..]);
    }
  }

  lemma VerdictFrom(s: State, es: seq<Event>)
    requires Inv(s) && s.messages == [] && !s.disconnected && !s.phase.Over?
    requires IsRun(s, es) && End(s, es).phase.Over?
    ensures var r := End(s, es);
      && (r.phase.outcome == Replied ==> r.sent == Relayed(Collected(es)))
      && (r.phase.outcome == TimedOut ==> r.sent == GATEWAY_TIMEOUT)
      && (r.phase.outcome == Gone ==> r.sent == [] && Disconnect in Heard(es))
      && r.app != Running(false) && r.watcher == Stopped
  {
    RunKeeps(s, es);
    Ended(End(s, es));
    Recorded(s, es);
    Noticed(s, es);
    OverIsCleaned(s, es);
  }

  /** What each way of ending means for the client, over every run: all that the application sent, in order;
      the whole 504; or nothing for a client that has left. The watcher has ended, and an application that
      still runs has been asked to cancel. */
  lemma Verdict(es: seq<Event>)
    requires IsRun(FRESH, es) && End(FRESH, es).phase.Over?
    ensures var s := End(FRESH, es);
      && (s.phase.outcome == Replied ==> s.sent == Relayed(Collected(es)))
      && (s.phase.outcome == TimedOut ==> s.sent == [TimeoutStart, TimeoutBody])
      && (s.phase.outcome == Gone ==> s.sent == [] && Disconnect in Heard(es))
      && s.app != Running(false) && s.watcher == Stopped
  {
    VerdictFrom(FRESH, es);
  }

  /** The way a handler has taken: none yet, or the outcome it is heading for. */
  function Heading(p: Phase): Option<Outcome> {
    match p
    case Racing => None
    case Replying(_) => Some(Replied)
    case Refusing(_) => Some(TimedOut)
    case Cleaning(o) => Some(o)
    case Over(o) => Some(o)
  }

  /** Once the race is left it is left for good: the handler keeps its way, unless a send fails or the server
      cancels it, and never decides again. */
  lemma {:induction false} HeadingKept(s: State, es: seq<Event>)
    requires IsRun(s, es) && !s.phase.Racing?
    ensures !End(s, es).phase.Racing? && Decides !in es
    ensures Heading(End(s, es).phase) == Heading(s.phase) || Heading(End(s, es).phase) == Some(Failed)
    decreases |es|
  {
    if es != [] {
      HeadingKept(Step(s, es[0]), es[1..]);
    }
  }

  /** The way taken by somebody who decides in state `s`. */
  function WayFrom(s: State): Outcome {
    match s.app
    case Returned => Replied
    case Raised => Failed
    case Running(_) => if s.disconnected then Gone else TimedOut
  }

  lemma PrefixEnd(s: State, es: seq<Event>, n: nat)
    requires n < |es| && Enabled(s, es[0]) && IsRun(Step(s, es[0]), es[1..][..n])
    ensures IsRun(s, es[..n + 1]) && End(s, es[..n + 1]) == End(Step(s, es[0]), es[1..][..n])
  {
    assert es[..n + 1] == [es[0]] + es[1..][..n];
    RunCons(s, es[0], es[1..][..n]);
  }

  /** The way after a run is the one that a decision in `s` takes, or a failure if there was none. */
  predicate Follows(s: State, decides: bool, way: Option<Outcome>) {
    way == Some(Failed) || way == if decides then Some(WayFrom(s)) else None
  }

  lemma LeavingNow(s: State, es: seq<Event>)
    requires IsRun(s, es) && s.phase.Racing? && es != [] && !Step(s, es[0]).phase.Racing?
    ensures forall i :: 1 <= i < |es| ==> es[i] != Decides
    ensures Follows(s, es[0] == Decides, Heading(End(s, es).phase))
  {
    HeadingKept(Step(s, es[0]), es[1..]);
    assert forall i :: 1 <= i < |es| ==> es[i] == es[1..][i - 1] && es[i] in es[1..];
  }

  lemma {:induction false} DecisionAt(s: State, es: seq<Event>) returns (k: nat)
    requires IsRun(s, es) && s.phase.Racing?
    ensures k <= |es| && IsRun(s, es[..k]) && End(s, es[..k]).phase.Racing?
    ensures forall i :: 0 <= i < |es| && es[i] == Decides ==> i == k
    ensures k < |es| && es[k] == Decides ==> Enabled(End(s, es[..k]), Decides)
    ensures Follows(End(s, es[..k]), k < |es| && es[k] == Decides, Heading(End(s, es).phase))
    decreases |es|
  {
    if es == [] {
      k := 0;
    } else if Step(s, es[0]).phase.Racing? {
      var n := DecisionAt(Step(s, es[0]), es[1..]);
      k := n + 1;
      PrefixEnd(s, es, n);
      assert forall i :: 1 <= i < |es| ==> es[i] == es[1..][i - 1];
    } else {
      k := 0;
      assert es[..k] == [];
      LeavingNow(s, es);
    }
  }

  /** While the race is on, the watcher has ended only because the client left or its channel raised. */
  lemma {:induction false} WatcherStopped(s: State, es: seq<Event>)
    requires IsRun(s, es) && End(s, es).phase.Racing? && End(s, es).watcher == Stopped
    ensures s.watcher == Stopped || Disconnect in Heard(es) || WatcherFails in es
    decreases |es|
  {
    if es != [] {
      if es[0] == Cleans {
        HeadingKept(Step(s, es[0]), es[1..]);
      } else {
        WatcherStopped(Step(s, es[0]), es[1..]);
      }
    }
  }

  /** In every run the race is decided at most once, and what the client gets in the end was settled then, by
      what had happened when the handler resumed and not by what woke it: the application's response if and
      only if the application had returned, the 504 if and only if it had not ended and the client had not
      left, nothing if it had left. A failing send or a cancelled handler changes the outcome to a failure and
      to nothing else. A 504 means that the budget was over or that the client's channel had raised. */
  lemma DecidedOnce(es: seq<Event>) returns (k: nat)
    requires IsRun(FRESH, es)
    ensures k <= |es| && IsRun(FRESH, es[..k])
    ensures forall i :: 0 <= i < |es| && es[i] == Decides ==> i == k
    ensures var before, end := es[..k], End(FRESH, es).phase;
      end.Over? && end.outcome != Failed ==>
        && k < |es| && es[k] == Decides
        && (end.outcome == Replied <==> AppStops(true) in before)
        && (end.outcome == TimedOut <==>
              AppStops(true) !in before && AppStops(false) !in before && Disconnect !in Heard(before))
        && (end.outcome == Gone <==>
              AppStops(true) !in before && AppStops(false) !in before && Disconnect in Heard(before))
        && (end.outcome == TimedOut ==> TimerFires in before || WatcherFails in before)
  {
    k := DecisionAt(FRESH, es);
    var before := es[..k];
    Noticed(FRESH, before);
    if End(FRESH, before).watcher == Stopped {
      WatcherStopped(FRESH, before);
    }
  }

  /** Once the handler has turned away from the application, nothing the application still sends can
      reach the client. */
  lemma {:induction false} LateSendsAreBuffered(s: State, es: seq<Event>)
    requires IsRun(s, es) && !s.phase.Racing? && !s.phase.Replying?
    ensures var r := End(s, es);
      && s.sent <= r.sent && s.messages <= r.messages
      && forall i :: |s.sent| <= i < |r.sent| ==> !r.sent[i].FromApp?
    decreases |es|
  {
    if es != [] {
      var r := Step(s, es[0]);
      assert s.sent <= r.sent && s.messages <= r.messages;
      assert forall i :: |s.sent| <= i < |r.sent| ==> !r.sent[i].FromApp?;
      LateSendsAreBuffered(r, es[1..]);
    }
  }

  /** A timeout does not wait for the application: once the timer has fired, or the watcher has failed, the
      handler alone gets the whole 504 out and finishes, with the application still running, asked to
      cancel. */
  lemma TimeoutDoesNotWait(s: State)
    requires Reachable(s) && s.phase.Racing? && (s.expired || s.watcher == Stopped)
    requires s.app.Running? && !s.disconnected
    ensures var own := [Decides, Sends, Sends, Sends, Cleans];
      && IsRun(s, own)
      && End(s, own).phase == Over(TimedOut) && End(s, own).sent == GATEWAY_TIMEOUT && End(s, own).app == Running(true)
  {
    ReachableInv(s);
    var s1 := Step(s, Decides);
    var s2 := Step(s1, Sends);
    var s3 := Step(s2, Sends);
    var s4 := Step(s3, Sends);
    assert s4.phase == Cleaning(TimedOut) && s4.sent == GATEWAY_TIMEOUT;
    RunCons(s4, Cleans, []);
    RunCons(s3, Sends, [Cleans]);
    RunCons(s2, Sends, [Sends, Cleans]);
    RunCons(s1, Sends, [Sends, Sends, Cleans]);
    RunCons(s, Decides, [Sends, Sends, Sends, Cleans]);
  }

  function Times(e: Event, n: nat): seq<Event> {
    seq(n, _ => e)
  }

  /** The handler's loop over the buffer, from place `k` to its end. */
  lemma {:induction false} SendsOut(s: State, k: nat)
    requires s.phase == Replying(k) && k <= |s.messages| && s.sent == Relayed(s.messages)[..k]
    ensures var own := Times(Sends, |s.messages| - k + 1) + [Cleans];
      && IsRun(s, own)
      && End(s, own).phase == Over(Replied) && End(s, own).sent == Relayed(s.messages)
    decreases |s.messages| - k
  {
    var n := |s.messages| - k;
    var r := Step(s, Sends);
    if n == 0 {
      RunCons(r, Cleans, []);
      RunCons(s, Sends, [Cleans]);
      assert Times(Sends, 1) + [Cleans] == [Sends] + [Cleans];
    } else {
      SendsOut(r, k + 1);
      RunCons(s, Sends, Times(Sends, n) + [Cleans]);
      assert Times(Sends, n + 1) + [Cleans] == [Sends] + (Times(Sends, n) + [Cleans]);
    }
  }

  lemma ReplyFrom(s: State)
    requires Inv(s) && s.phase.Racing? && s.app.Returned?
    ensures var own := [Decides] + (Times(Sends, |s.messages| + 1) + [Cleans]);
      && IsRun(s, own)
      && End(s, own).phase == Over(Replied) && End(s, own).sent == Relayed(s.messages)
  {
    SendsOut(Step(s, Decides), 0);
    RunCons(s, Decides, Times(Sends, |s.messages| + 1) + [Cleans]);
  }

  /** A response does not get stuck: once the application has returned, the handler alone gets everything
      it sent out to the client, in order, and finishes. */
  lemma ReplyDoesNotWait(es: seq<Event>)
    requires IsRun(FRESH, es) && End(FRESH, es).phase.Racing? && AppStops(true) in es
    ensures var s, own := End(FRESH, es), [Decides] + (Times(Sends, |Collected(es)| + 1) + [Cleans]);
      && IsRun(s, own)
      && End(s, own).phase == Over(Replied) && End(s, own).sent == Relayed(Collected(es))
  {
    var s := End(FRESH, es);
    Recorded(FRESH, es);
    Noticed(FRESH, es);
    RunKeeps(FRESH, es);
    ReplyFrom(s);
  }

  /** A client that left is not waited for: with the application still running the handler asks it to cancel
      and finishes at once, having sent nothing. */
  lemma GoneDoesNotWait(es: seq<Event>)
    requires IsRun(FRESH, es) && End(FRESH, es).phase.Racing? && End(FRESH, es).app.Running?
    requires Disconnect in Heard(es)
    ensures var s, own := End(FRESH, es), [Decides] + [Cleans];
      && IsRun(s, own)
      && End(s, own).phase == Over(Gone) && End(s, own).sent == [] && End(s, own).app == Running(true)
  {
    var s := End(FRESH, es);
    Noticed(FRESH, es);
    RunKeeps(FRESH, es);
    RunCons(Step(s, Decides), Cleans, []);
    RunCons(s, Decides, [Cleans]);
  }

  lemma RunCons(s: State, e: Event, es: seq<Event>)
    requires Enabled(s, e) && IsRun(Step(s, e), es)
    ensures IsRun(s, [e] + es) && End(s, [e] + es) == End(Step(s, e), es)
  {
  }

  /** A 504 can come before the budget is over: if the client's channel raises, at once. */
  lemma TimedOutEarly() returns (es: seq<Event>)
    ensures IsRun(FRESH, es) && TimerFires !in es
    ensures End(FRESH, es).phase == Over(TimedOut) && End(FRESH, es).sent == GATEWAY_TIMEOUT
  {
    var s := Step(FRESH, WatcherFails);
    RunCons(FRESH, WatcherFails, []);
    assert Reachable(s);
    TimeoutDoesNotWait(s);
    var own := [Decides, Sends, Sends, Sends, Cleans];
    RunCons(FRESH, WatcherFails, own);
    es := [WatcherFails] + own;
  }

  /** What the client sends is in the queue at once if there is room, and a disconnect always is; the watcher
      holds back only a request that finds the queue full. */
  lemma ArrivesInQueue(s: State, m: Inbound)
    requires Reachable(s) && Enabled(s, ClientSends(m))
    ensures var r := Step(s, ClientSends(m));
      && (s.incoming == [] || m == Disconnect ==> r.incoming == [m])
      && (s.incoming != [] && m != Disconnect ==> r.incoming == s.incoming && r.watcher == Putting(m))
      && (r.watcher == Stopped <==> m == Disconnect)
  {
    ReachableInv(s);
  }

  lemma Through(s: State) returns (before: seq<Inbound>)
    requires QueueOk(s)
    ensures !s.disconnected && s.dropped == [] ==>
      s.seen == s.taken + s.incoming + if s.watcher.Putting? then [s.watcher.held] else []
    ensures s.disconnected ==>
      s.seen == before + s.dropped + [Disconnect] && s.taken + s.incoming == before + [Disconnect]
  {
    var through := s.taken + s.incoming;
    before := if s.disconnected then through[..|through| - 1] else [];
    if s.disconnected {
      assert through == before + [through[|through| - 1]];
    }
  }

  /** A disconnect is the last thing the application reads, and pushes out at most the one message before
      it; until then every message is passed on in order. */
  lemma DisconnectGetsThrough(es: seq<Event>) returns (before: seq<Inbound>)
    requires IsRun(FRESH, es)
    ensures var s := End(FRESH, es);
      && |s.incoming| <= 1 && |s.dropped| <= 1
      && (Disconnect !in Heard(es) && s.dropped == [] ==>
            Heard(es) == s.taken + s.incoming + if s.watcher.Putting? then [s.watcher.held] else [])
      && (Disconnect in Heard(es) ==>
            && Heard(es) == before + s.dropped + [Disconnect]
            && s.taken + s.incoming == before + [Disconnect])
  {
    var s := End(FRESH, es);
    RunKeeps(FRESH, es);
    Recorded(FRESH, es);
    Noticed(FRESH, es);
    before := Through(s);
  }

  datatype Emission = Nothing | Message(message: Outbound)

  /** One request being handled: the program's local variables, updated in place by the handler, the
      watcher and the `collect` function the application sends through. */
  class Exchange {
    var app: App
    var messages: seq<nat>
    var incoming: seq<Inbound>
    var watcher: Watcher
    var disconnected: bool
    var expired: bool
    var phase: Phase
    ghost var sent: seq<Outbound>
    ghost var seen: seq<Inbound>
    ghost var taken: seq<Inbound>
    ghost var dropped: seq<Inbound>

    ghost function Model(): State
      reads this
    {
      State(app, messages, incoming, watcher, disconnected, expired, phase, sent, seen, taken, dropped)
    }

    constructor ()
      ensures Model() == FRESH
    {
      app, messages, incoming, watcher := Running(false), [], [], Listening;
      disconnected, expired, phase := false, false, Racing;
      sent, seen, taken, dropped := [], [], [], [];
    }

    method Collect(m: nat)
      modifies this
      ensures Model() == old(Model()).Collect(m)
    {
      messages := messages + [m];
    }

    /** The watcher's loop, from a message to its next suspension. */
    method Watch(m: Inbound)
      requires |incoming| <= 1
      modifies this
      ensures Model() == old(Model()).Watch(m)
    {
      seen := seen + [m];
      if m == Disconnect {
        disconnected := true;
        if |incoming| == 1 {
          dropped := [incoming[0]];
          incoming := [];
        } else {
          dropped := [];
        }
        incoming := incoming + [m];
        watcher := Stopped;
        return;
      }
      if |incoming| == 0 {
        incoming := incoming + [m];
      } else {
        watcher := Putting(m);
      }
    }

    /** The handler, from the end of the wait to its first `send` or its cleanup. */
    method Decide()
      modifies this
      ensures Model() == old(Model()).Decide()
    {
      if !app.Running? {
        phase := if app.Returned? then Replying(0) else Cleaning(Failed);
        return;
      }
      app := Running(true);
      phase := if !disconnected then Refusing(0) else Cleaning(Gone);
    }

    /** The handler's loop over the messages it sends, one `send` at a time. */
    method SendNext() returns (out: Emission)
      requires phase.Replying? || phase.Refusing?
      modifies this
      ensures Model() == old(Model()).SendNext()
      ensures sent == old(sent) + if out.Nothing? then [] else [out.message]
    {
      var batch := if phase.Replying? then Relayed(messages) else GATEWAY_TIMEOUT;
      var k := phase.next;
      if k < |batch| {
        out := Message(batch[k]);
        sent := sent + [batch[k]];
        phase := if phase.Replying? then Replying(k + 1) else Refusing(k + 1);
      } else {
        out := Nothing;
        phase := Cleaning(if phase.Replying? then Replied else TimedOut);
      }
    }
  }
}
