/** Shutdown loses nothing, and the store outlives the dispatcher. */
module RelayShutdown {
  import opened Relay
  import opened RelayInvariant
  import opened RelayHistory
  import opened RelayTheorems
  import opened RelayProgress

  /** A worker returns only with its queue closed and empty, never because its context was cancelled. */
  lemma WorkersLeaveOnlyEmptyClosedQueues(cfg: Config, s: State, w: nat)
    requires Reachable(cfg, s) && w < cfg.channels
    ensures |s.pipes.queues| == |s.pipes.workers| == cfg.channels
    ensures s.pipes.workers[w].Exited? ==>
              s.pipes.queues[w].closed && s.pipes.queues[w].done && s.pipes.queues[w].buffer == []
    ensures !CanWork(cfg, s.pipes, w, WaitCancelled)
  {
    ReachableInv(cfg, s);
    assert QueueInv(cfg, s, w) && WorkerInv(s, w);
  }

  lemma WorkersGoneMeansExited(cfg: Config, s: State)
    requires ControlInv(cfg, s) && WorkersReturned(s.loop.pc)
    ensures forall w: nat | w < cfg.channels :: s.pipes.workers[w].Exited?
  {
    forall w: nat | w < cfg.channels ensures s.pipes.workers[w].Exited? {
      assert WorkerInv(s, w);
    }
  }

  /** The two panics of the shutdown code cannot happen: no queue's `done` is closed twice, and no worker is left to
      send when the results channel is closed. The final drain finds nothing. */
  lemma ShutdownCannotPanic(cfg: Config, s: State)
    requires Reachable(cfg, s)
    ensures CanShutdown(s, SignalDone) ==> !s.pipes.queues[s.loop.channel].done
    ensures s.pipes.resultsClosed ==> forall w: nat | w < |s.pipes.workers| :: s.pipes.workers[w].Exited?
    ensures s.loop.pc.ClosingResults? ==> forall w: nat | w < |s.pipes.workers| :: s.pipes.workers[w].Exited?
    ensures !CanShutdown(s, DrainResult)
  {
    ReachableInv(cfg, s);
    if WorkersReturned(s.loop.pc) {
      WorkersGoneMeansExited(cfg, s);
      OutsideRoundMeansQuiescent(cfg, s);
    }
  }

  /** When `Run` has returned, every queue is closed and empty, every worker is gone, the results channel is empty, and
      every accepted enqueue of the whole run has had its one `Send` and its one collected result. */
  lemma NothingIsLeftBehind(cfg: Config, s: State)
    requires Reachable(cfg, s) && s.loop.pc.Returned?
    ensures |s.pipes.queues| == |s.pipes.workers| == cfg.channels
    ensures forall c: nat | c < cfg.channels ::
              s.pipes.queues[c].closed && s.pipes.queues[c].buffer == [] && s.pipes.workers[c].Exited?
    ensures s.pipes.results == []
    ensures forall c: nat, t: Note | c < cfg.channels ::
              Accepts(s, c, t) == Sends(s, c, t, true) + Sends(s, c, t, false)
    ensures forall c: nat, t: Note, ok: bool | c < cfg.channels :: Sends(s, c, t, ok) == Collects(s, c, t, ok)
  {
    ReachableInv(cfg, s);
    OutsideRoundMeansQuiescent(cfg, s);
    forall c: nat | c < cfg.channels
      ensures s.pipes.queues[c].closed && s.pipes.queues[c].buffer == [] && s.pipes.workers[c].Exited?
    {
      assert QueueInv(cfg, s, c) && WorkerInv(s, c);
    }
    forall c: nat, t: Note | c < cfg.channels
      ensures Accepts(s, c, t) == Sends(s, c, t, true) + Sends(s, c, t, false)
    {
      TokensAreConserved(cfg, s, c, t);
    }
    forall c: nat, t: Note, ok: bool | c < cfg.channels ensures Sends(s, c, t, ok) == Collects(s, c, t, ok) {
      TokensAreConserved(cfg, s, c, t);
    }
  }

  predicate StoreCall(e: Event) {
    e.Saved? || e.Fetched? || e.FetchFailed? || e.Marked? || e.MarkFailed?
  }

  /** `run` closes the store once, after the dispatcher has returned, whichever way it leaves; no committed `Save`, no
      `GetPending` and no `MarkSent` comes later. */
  lemma StoreIsClosedLast(cfg: Config, s: State, i: nat, j: nat)
    requires Reachable(cfg, s) && i < |s.trace.log| && j < |s.trace.log| && s.trace.log[i].StoreClosed?
    ensures s.host.main.Finished? && s.loop.pc.Returned?
    ensures StoreCall(s.trace.log[j]) ==> j < i
    ensures s.trace.log[j].StoreClosed? ==> j == i
  {
    ReachableInv(cfg, s);
    ReachableHistory(cfg, s);
    JustifiedAt(cfg, s, j);
    JustifiedAt(cfg, s, i);
    PrefixHas(s.trace.log, i, j);
    PrefixHas(s.trace.log, j, i);
  }

  lemma ReturnedDispatcherRests(cfg: Config, s: State, p: PollStep, d: ShutdownStep)
    requires s.loop.pc.Returned?
    ensures !CanPoll(cfg, s, p) && !CanShutdown(s, d)
  {
  }

  lemma ExitedWorkerRests(cfg: Config, s: State, w: nat, k: WorkStep)
    requires w < |s.pipes.workers| ==> s.pipes.workers[w].Exited?
    ensures !CanWork(cfg, s.pipes, w, k)
  {
  }

  lemma OnlyOutsideMoves(cfg: Config, s: State, a: Action)
    requires ControlInv(cfg, s) && s.loop.pc.Returned? && Enabled(cfg, s, a)
    ensures a.Outside?
  {
    WorkersGoneMeansExited(cfg, s);
    match a
    case Outside(_) =>
    case Poll(p) => ReturnedDispatcherRests(cfg, s, p, EndDrain);
    case Shutdown(d) => ReturnedDispatcherRests(cfg, s, FetchFails, d);
    case Work(w, k) => ExitedWorkerRests(cfg, s, w, k);
  }

  /** The store is closed exactly by the time `run` is finished, and `run` gets there only through the dispatcher's
      return: at the close itself no dispatcher step is possible any more. */
  lemma StoreIsClosedAfterTheDispatcher(cfg: Config, s: State, a: Action)
    requires Reachable(cfg, s)
    ensures s.host.main.Finished? <==> StoreClosed in s.trace.log
    ensures s.host.main.ClosingStore? || s.host.main.Finished? ==>
              s.loop.pc.Returned? && (Enabled(cfg, s, a) ==> a.Outside?)
  {
    ReachableInv(cfg, s);
    ReachableHistory(cfg, s);
    if s.loop.pc.Returned? && Enabled(cfg, s, a) {
      OnlyOutsideMoves(cfg, s, a);
    }
  }

  // ----- the order of the shutdown

  /** The HTTP server may still be accepting and saving groups. */
  predicate ServerNotStopped(m: MainPc) {
    m.Serving? || m.StoppingHttp? || m.CancellingDispatcher?
  }

  /** As long as `run` has not told the dispatcher to stop, only a signal can have cancelled its context. */
  ghost predicate CancelledBySignal(s: State) {
    ServerNotStopped(s.host.main) && s.host.cancelled ==> s.host.signalled
  }

  lemma {:induction false} RunKeepsCancelledBySignal(cfg: Config, s: State, actions: seq<Action>)
    requires CancelledBySignal(s) && Legal(cfg, s, actions)
    ensures CancelledBySignal(Exec(cfg, s, actions))
    decreases |actions|
  {
    if actions != [] {
      assert CancelledBySignal(Apply(cfg, s, actions[0]));
      RunKeepsCancelledBySignal(cfg, Apply(cfg, s, actions[0]), actions[1..]);
    }
  }

  /** A dispatcher that shuts down before `run` told it to has seen a signal: when the HTTP server fails by itself, the
      dispatcher never stops first. */
  lemma EarlyShutdownMeansSignal(cfg: Config, s: State)
    requires Reachable(cfg, s) && ServerNotStopped(s.host.main) && !BeforeShutdown(s.loop)
    ensures s.host.signalled
  {
    ReachableInv(cfg, s);
    var actions :| Legal(cfg, Init(cfg), actions) && s == Exec(cfg, Init(cfg), actions);
    RunKeepsCancelledBySignal(cfg, Init(cfg), actions);
  }

  lemma {:induction false} InnerRunKeepsHost(cfg: Config, s: State, actions: seq<Action>)
    requires Reachable(cfg, s) && Legal(cfg, s, actions) && forall a | a in actions :: !a.Outside?
    ensures Reachable(cfg, Exec(cfg, s, actions)) && Exec(cfg, s, actions).host == s.host
    decreases |actions|
  {
    if actions != [] {
      assert actions[0] in actions;
      ReachableStep(cfg, s, actions[0]);
      FinishingStepKeepsHost(cfg, s, actions[0]);
      InnerRunKeepsHost(cfg, Apply(cfg, s, actions[0]), actions[1..]);
    }
  }

  /** The dispatcher and its workers can, by themselves, bring the dispatcher to its return. */
  ghost predicate DispatcherCanReturn(cfg: Config, s: State) {
    exists actions: seq<Action> ::
      && Legal(cfg, s, actions) && (forall a | a in actions :: !a.Outside?)
      && Exec(cfg, s, actions).loop.pc.Returned?
  }

  /** docs/architecture.md lets the HTTP server stop before the dispatcher. The exact condition: while the server
      has not been stopped, the dispatcher can be gone first if and only if a signal has arrived. */
  lemma DispatcherMayStopFirstExactlyOnSignal(cfg: Config, s: State)
    requires Reachable(cfg, s) && ServerNotStopped(s.host.main)
    ensures DispatcherCanReturn(cfg, s) <==> s.host.signalled
  {
    if s.host.signalled {
      ReachableInv(cfg, s);
      var actions := ShutdownCanComplete(cfg, s);
      assert forall a | a in actions :: !a.Outside?;
    }
    if DispatcherCanReturn(cfg, s) {
      var actions: seq<Action> :|
        && Legal(cfg, s, actions) && (forall a | a in actions :: !a.Outside?)
        && Exec(cfg, s, actions).loop.pc.Returned?;
      InnerRunKeepsHost(cfg, s, actions);
      EarlyShutdownMeansSignal(cfg, Exec(cfg, s, actions));
    }
  }

  // ----- `run` comes to its end

  /** Nobody saves a group, sends a signal or breaks the server. */
  predicate Unprovoked(a: Action) {
    a.Outside? ==> !a.outside.SaveCommits? && !a.outside.SignalArrives? && !a.outside.HttpFails?
  }

  predicate AllUnprovoked(actions: seq<Action>) {
    forall a | a in actions :: Unprovoked(a)
  }

  /** How many stages `run` has left. */
  function StagesLeft(m: MainPc): nat {
    match m
    case Serving => 5
    case StoppingHttp => 4
    case CancellingDispatcher => 3
    case AwaitingDispatcher => 2
    case ClosingStore => 1
    case Finished => 0
  }

  /** What `run` does next; `clean` is how the server stops. */
  function NextStep(m: MainPc, clean: bool): OutsideStep
    requires !m.Finished?
  {
    match m
    case Serving => SeeSignal
    case StoppingHttp => HttpStopped(clean)
    case CancellingDispatcher => CancelDispatcher
    case AwaitingDispatcher => ReceiveDispatcherDone
    case ClosingStore => CloseStore
  }

  lemma NextStepIsPossible(cfg: Config, s: State, clean: bool)
    requires !s.host.main.Finished? && (s.host.main.Serving? ==> s.host.signalled)
    requires s.host.main.AwaitingDispatcher? ==> s.loop.pc.Returned?
    ensures var a := NextStep(s.host.main, clean);
            CanOutside(cfg, s, a) && StagesLeft(DoOutside(cfg, s, a).host.main) == StagesLeft(s.host.main) - 1
  {
  }

  /** The next stage of `run`, after whatever the dispatcher has to do first. */
  lemma NextStage(cfg: Config, s: State, clean: bool) returns (actions: seq<Action>)
    requires Reachable(cfg, s) && !s.host.main.Finished? && (s.host.main.Serving? ==> s.host.signalled)
    ensures Legal(cfg, s, actions) && AllUnprovoked(actions)
    ensures Reachable(cfg, Exec(cfg, s, actions))
    ensures StagesLeft(Exec(cfg, s, actions).host.main) == StagesLeft(s.host.main) - 1
    ensures Outside(NextStep(s.host.main, clean)) in actions
  {
    var first: seq<Action> := [];
    if s.host.main.AwaitingDispatcher? {
      ReachableInv(cfg, s);
      first := ShutdownCanComplete(cfg, s);
    }
    var mid := Exec(cfg, s, first);
    var a := Outside(NextStep(s.host.main, clean));
    NextStepIsPossible(cfg, mid, clean);
    LegalAppend(cfg, s, first, a);
    ReachableStep(cfg, mid, a);
    actions := first + [a];
  }

  /** Once `run` has left its select, or can leave it for a signal, it reaches its return without any further help,
      in particular whether the server stops cleanly or not; and it has closed the store, once. */
  lemma {:induction false} RunCanReturn(cfg: Config, s: State, clean: bool) returns (actions: seq<Action>)
    requires Reachable(cfg, s) && (s.host.main.Serving? ==> s.host.signalled)
    ensures Legal(cfg, s, actions) && AllUnprovoked(actions)
    ensures var end := Exec(cfg, s, actions);
            end.host.main.Finished? && end.loop.pc.Returned? && multiset(end.trace.log)[StoreClosed] == 1
    ensures s.host.main.Serving? || s.host.main.StoppingHttp? ==> Outside(HttpStopped(clean)) in actions
    decreases StagesLeft(s.host.main)
  {
    if s.host.main.Finished? {
      actions := [];
      StoreIsClosedOnce(cfg, s);
    } else {
      var first := NextStage(cfg, s, clean);
      var rest := RunCanReturn(cfg, Exec(cfg, s, first), clean);
      LegalConcat(cfg, s, first, rest);
      actions := first + rest;
    }
  }

  lemma StoreIsClosedOnce(cfg: Config, s: State)
    requires Reachable(cfg, s) && s.host.main.Finished?
    ensures s.loop.pc.Returned? && multiset(s.trace.log)[StoreClosed] == 1
  {
    var log := s.trace.log;
    StoreIsClosedAfterTheDispatcher(cfg, s, Outside(SignalArrives));
    var i :| 0 <= i < |log| && log[i] == StoreClosed;
    forall j | 0 <= j < |log| && j != i ensures log[j] != StoreClosed {
      StoreIsClosedLast(cfg, s, i, j);
    }
    assert log == log[..i] + [log[i]] + log[i + 1..];
  }

  lemma {:induction false} UnprovokedServes(cfg: Config, s: State, actions: seq<Action>)
    requires Legal(cfg, s, actions) && AllUnprovoked(actions) && s.host.main.Serving? && !s.host.signalled
    ensures Exec(cfg, s, actions).host.main.Serving?
    decreases |actions|
  {
    if actions != [] {
      assert actions[0] in actions;
      UnprovokedServes(cfg, Apply(cfg, s, actions[0]), actions[1..]);
    }
  }

  /** Some run without a save, a signal or a server failure takes `run` to its return. */
  ghost predicate ReturnsUnprovoked(cfg: Config, s: State) {
    exists actions ::
      Legal(cfg, s, actions) && AllUnprovoked(actions) && Exec(cfg, s, actions).host.main.Finished?
  }

  /** The exact condition: `run` returns by itself from every reachable state in which it has left its select or a
      signal has arrived, and from no other. */
  lemma RunReturnsExactly(cfg: Config, s: State)
    requires Reachable(cfg, s)
    ensures ReturnsUnprovoked(cfg, s) <==> !s.host.main.Serving? || s.host.signalled
  {
    if !s.host.main.Serving? || s.host.signalled {
      var actions := RunCanReturn(cfg, s, true);
    }
    if ReturnsUnprovoked(cfg, s) {
      var actions :|
        Legal(cfg, s, actions) && AllUnprovoked(actions) && Exec(cfg, s, actions).host.main.Finished?;
      if s.host.main.Serving? && !s.host.signalled {
        UnprovokedServes(cfg, s, actions);
      }
    }
  }

  /** A server failure is always a way out: `run` cancels the dispatcher, waits for it and closes the store, without any
      signal. */
  lemma ServerFailureEndsRun(cfg: Config, s: State) returns (actions: seq<Action>)
    requires Reachable(cfg, s) && s.host.main.Serving?
    ensures Legal(cfg, s, [Outside(HttpFails)] + actions) && AllUnprovoked(actions)
    ensures var end := Exec(cfg, s, [Outside(HttpFails)] + actions);
            end.host.main.Finished? && end.loop.pc.Returned? && multiset(end.trace.log)[StoreClosed] == 1
  {
    ReachableStep(cfg, s, Outside(HttpFails));
    actions := RunCanReturn(cfg, Apply(cfg, s, Outside(HttpFails)), true);
    assert ([Outside(HttpFails)] + actions)[1..] == actions;
  }
}
