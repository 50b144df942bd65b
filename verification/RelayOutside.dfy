/** What the outside world can do at any moment, told by what has happened and not by the state. */
module RelayOutside {
  import opened Alerts
  import opened Relay
  import opened RelayInvariant
  import opened RelayProgress

  // ----- the main goroutine, the signal and the server

  /** Where `run` stands after the steps `past`. */
  ghost predicate MainAgrees(m: MainPc, past: seq<Action>) {
    && (m.Serving? <==> Outside(HttpFails) !in past && Outside(SeeSignal) !in past)
    && (m.StoppingHttp? <==> Outside(SeeSignal) in past && !HasStopped(past))
    && (m.CancellingDispatcher? <==>
          (Outside(HttpFails) in past || HasStopped(past)) && Outside(CancelDispatcher) !in past)
    && (m.AwaitingDispatcher? <==> Outside(CancelDispatcher) in past && Outside(ReceiveDispatcherDone) !in past)
    && (m.ClosingStore? <==> Outside(ReceiveDispatcherDone) in past && Outside(CloseStore) !in past)
    && (m.Finished? <==> Outside(CloseStore) in past)
  }

  ghost predicate HasStopped(past: seq<Action>) {
    Outside(HttpStopped(true)) in past || Outside(HttpStopped(false)) in past
  }

  ghost predicate HostAgrees(h: Host, past: seq<Action>) {
    && MainAgrees(h.main, past)
    && (h.signalled <==> Outside(SignalArrives) in past)
    && (h.cancelled <==> Outside(SignalArrives) in past || Outside(CancelDispatcher) in past)
    && (h.httpOpen <==> Outside(HttpStopped(true)) !in past)
  }

  lemma OutsideKeepsHost(cfg: Config, s: State, past: seq<Action>, o: OutsideStep)
    requires HostAgrees(s.host, past) && CanOutside(cfg, s, o)
    ensures HostAgrees(DoOutside(cfg, s, o).host, past + [Outside(o)])
  {
    assert forall x :: x in past + [Outside(o)] <==> x in past || x == Outside(o);
    if o.HttpStopped? {
      assert o == HttpStopped(true) || o == HttpStopped(false);
    }
  }

  lemma StepKeepsHost(cfg: Config, s: State, past: seq<Action>, a: Action)
    requires HostAgrees(s.host, past) && Enabled(cfg, s, a)
    ensures HostAgrees(Apply(cfg, s, a).host, past + [a])
  {
    if a.Outside? {
      OutsideKeepsHost(cfg, s, past, a.outside);
    } else {
      FinishingStepKeepsHost(cfg, s, a);
      assert forall x: OutsideStep :: Outside(x) in past + [a] <==> Outside(x) in past;
    }
  }

  lemma {:induction false} RunKeepsHost(cfg: Config, s: State, past: seq<Action>, run: seq<Action>)
    requires HostAgrees(s.host, past) && Legal(cfg, s, run)
    ensures HostAgrees(Exec(cfg, s, run).host, past + run)
    decreases |run|
  {
    if run == [] {
      assert past + run == past;
    } else {
      StepKeepsHost(cfg, s, past, run[0]);
      RunKeepsHost(cfg, Apply(cfg, s, run[0]), past + [run[0]], run[1..]);
      assert past + [run[0]] + run[1..] == past + run;
    }
  }

  /** The stage of `run`, the signal, the dispatcher's context and the server are what the steps so far have made of
      them: `run` leaves its select for a signal or a server failure and for nothing else, a server is down for good
      exactly if it stopped cleanly, and only a signal or `run` itself cancels the dispatcher. */
  lemma HostIsItsPast(cfg: Config, run: seq<Action>)
    requires Legal(cfg, Init(cfg), run)
    ensures HostAgrees(Exec(cfg, Init(cfg), run).host, run)
  {
    RunKeepsHost(cfg, Init(cfg), [], run);
    assert [] + run == run;
  }

  /** A valid payload can be stored as long as the server has not stopped cleanly and the store is not closed, whatever
      the dispatcher and its workers are doing; no other payload ever, and none later. */
  lemma PayloadIsAcceptedExactly(cfg: Config, run: seq<Action>, g: AlertGroup, now: Time)
    requires Legal(cfg, Init(cfg), run)
    ensures Enabled(cfg, Exec(cfg, Init(cfg), run), Outside(SaveCommits(g, now)))
            <==> && Outside(HttpStopped(true)) !in run && Outside(CloseStore) !in run
                 && ValidGroup(g, cfg.maxAlerts)
  {
    HostIsItsPast(cfg, run);
  }

  // ----- the contexts of the dispatcher

  ghost predicate TimersAreBehind(l: Loop, log: seq<Event>)
    requires l.at < |l.batch|
  {
    forall e | e in log && e.TimedOut? && e.note == Current(l) ::
      e.channel < l.channel || (l.pc.Enqueuing? && e.channel == l.channel)
  }

  /** The dispatcher's context is done exactly after a cancellation; the timer of an enqueue fires only while that
      enqueue waits; and its context is done exactly if one of the two has happened. */
  ghost predicate ContextsInv(s: State) {
    var l, log := s.loop, s.trace.log;
    && (s.host.cancelled <==> ContextDone in log)
    && (InRound(l) && l.at < |l.batch| ==> TimersAreBehind(l, log))
    && (l.pc.Enqueuing? && l.at < |l.batch| ==>
          (l.contextDone <==> ContextDone in log || TimedOut(l.channel, Current(l)) in log))
  }

  lemma OutsideKeepsContexts(cfg: Config, s: State, a: OutsideStep)
    requires ContextsInv(s) && CanOutside(cfg, s, a)
    ensures ContextsInv(DoOutside(cfg, s, a))
  {
  }

  lemma WorkKeepsContexts(cfg: Config, s: State, w: nat, a: WorkStep)
    requires ContextsInv(s) && CanWork(cfg, s.pipes, w, a)
    ensures ContextsInv(DoWork(cfg, s, w, a))
  {
  }

  lemma ShutdownKeepsContexts(s: State, a: ShutdownStep)
    requires ContextsInv(s) && CanShutdown(s, a)
    ensures ContextsInv(DoShutdown(s, a))
  {
  }

  /** A new group has no timer behind it. */
  lemma NewGroupKeepsContexts(cfg: Config, s: State, a: PollStep)
    requires ContextsInv(s) && Freshness(s) && CanPoll(cfg, s, a)
    requires DoPoll(cfg, s, a).loop.pc.FanOut? && DoPoll(cfg, s, a).loop.at < |DoPoll(cfg, s, a).loop.batch|
    requires Current(DoPoll(cfg, s, a).loop).round >= Horizon(s)
    ensures ContextsInv(DoPoll(cfg, s, a))
  {
    var s' := DoPoll(cfg, s, a);
    NewNoteHasNoPast(s, Current(s'.loop));
    assert forall e | e in s'.trace.log && e.TimedOut? :: e in s.trace.log;
  }

  predicate EndsGroup(a: PollStep) {
    a.EndFanOut? || a.EndCollect? || a.MarkSent? || a.MarkSentFails?
  }

  lemma SameGroupKeepsContexts(cfg: Config, s: State, a: PollStep)
    requires ContextsInv(s) && CanPoll(cfg, s, a) && !a.Fetch? && !EndsGroup(a)
    ensures ContextsInv(DoPoll(cfg, s, a))
  {
    var log, log' := s.trace.log, DoPoll(cfg, s, a).trace.log;
    assert forall e | e in log' && (e.TimedOut? || e.ContextDone?) :: e in log;
    assert forall e | e in log :: e in log';
  }

  lemma PollKeepsContexts(cfg: Config, s: State, a: PollStep)
    requires ContextsInv(s) && Freshness(s) && CanPoll(cfg, s, a)
    ensures ContextsInv(DoPoll(cfg, s, a))
  {
    var s' := DoPoll(cfg, s, a);
    if a.Fetch? || EndsGroup(a) {
      if s'.loop.pc.FanOut? {
        NewGroupKeepsContexts(cfg, s, a);
      }
    } else {
      SameGroupKeepsContexts(cfg, s, a);
    }
  }

  lemma StepKeepsContexts(cfg: Config, s: State, a: Action)
    requires ContextsInv(s) && Freshness(s) && Enabled(cfg, s, a)
    ensures ContextsInv(Apply(cfg, s, a))
  {
    match a
    case Outside(o) => OutsideKeepsContexts(cfg, s, o);
    case Poll(p) => PollKeepsContexts(cfg, s, p);
    case Shutdown(d) => ShutdownKeepsContexts(s, d);
    case Work(w, k) => WorkKeepsContexts(cfg, s, w, k);
  }

  lemma {:induction false} RunKeepsContexts(cfg: Config, s: State, run: seq<Action>)
    requires Inv(cfg, s) && ContextsInv(s) && Legal(cfg, s, run)
    ensures ContextsInv(Exec(cfg, s, run))
    decreases |run|
  {
    if run != [] {
      StepKeepsInv(cfg, s, run[0]);
      StepKeepsContexts(cfg, s, run[0]);
      RunKeepsContexts(cfg, Apply(cfg, s, run[0]), run[1..]);
    }
  }

  lemma ReachableContexts(cfg: Config, s: State)
    requires Reachable(cfg, s)
    ensures ContextsInv(s)
  {
    var run :| Legal(cfg, Init(cfg), run) && s == Exec(cfg, Init(cfg), run);
    InitInv(cfg);
    RunKeepsContexts(cfg, Init(cfg), run);
  }

  /** An enqueue in progress can be refused at once exactly if the dispatcher was cancelled or the timer of this very
      enqueue has fired. */
  lemma RefusedAtOnceExactly(cfg: Config, s: State)
    requires Reachable(cfg, s) && s.loop.pc.Enqueuing?
    ensures s.loop.at < |s.loop.batch|
    ensures CanPoll(cfg, s, EnqueueExpires)
            <==> ContextDone in s.trace.log || TimedOut(s.loop.channel, Current(s.loop)) in s.trace.log
  {
    ReachableInv(cfg, s);
    ReachableContexts(cfg, s);
  }

  /** The timer, or a signal, ends an enqueue that waits. */
  lemma EndsAfter(cfg: Config, s: State, o: OutsideStep)
    requires s.loop.pc.Enqueuing? && s.loop.at < |s.loop.batch|
    requires (o.EnqueueTimerFires? && !s.loop.contextDone) || (o.SignalArrives? && !s.host.signalled)
    ensures CanEndWith(cfg, s, [Outside(o), Poll(EnqueueExpires)],
                       [if o.SignalArrives? then ContextDone else TimedOut(s.loop.channel, Current(s.loop)),
                        Refused(s.loop.channel, Current(s.loop))])
  {
    TwoSteps(cfg, s, Outside(o), Poll(EnqueueExpires));
  }

  /** Both answers of every enqueue are possible: acceptance always, refusal at the latest after its own timer, and
      after a signal if none has come yet. */
  lemma EnqueueMayGoEitherWay(cfg: Config, s: State)
    requires Reachable(cfg, s) && s.loop.pc.Enqueuing?
    ensures s.loop.at < |s.loop.batch|
    ensures CanEndWith(cfg, s, [Poll(Offer)], [Accepted(s.loop.channel, Current(s.loop))])
    ensures s.loop.contextDone ==>
              CanEndWith(cfg, s, [Poll(EnqueueExpires)], [Refused(s.loop.channel, Current(s.loop))])
    ensures !s.loop.contextDone ==>
              CanEndWith(cfg, s, [Outside(EnqueueTimerFires), Poll(EnqueueExpires)],
                         [TimedOut(s.loop.channel, Current(s.loop)), Refused(s.loop.channel, Current(s.loop))])
    ensures !s.host.signalled ==>
              CanEndWith(cfg, s, [Outside(SignalArrives), Poll(EnqueueExpires)],
                         [ContextDone, Refused(s.loop.channel, Current(s.loop))])
  {
    ReachableInv(cfg, s);
    EnqueueAlwaysHasRoom(cfg, s);
    OneStep(cfg, s, Poll(Offer));
    if s.loop.contextDone {
      OneStep(cfg, s, Poll(EnqueueExpires));
    } else {
      EndsAfter(cfg, s, EnqueueTimerFires);
    }
    if !s.host.signalled {
      EndsAfter(cfg, s, SignalArrives);
    }
  }

  /** The steps can be taken, and they add these events. */
  ghost predicate CanEndWith(cfg: Config, s: State, steps: seq<Action>, events: seq<Event>) {
    Legal(cfg, s, steps) && Exec(cfg, s, steps).trace.log == s.trace.log + events
  }

  lemma OneStep(cfg: Config, s: State, a: Action)
    requires Enabled(cfg, s, a)
    ensures Legal(cfg, s, [a]) && Exec(cfg, s, [a]) == Apply(cfg, s, a)
  {
    assert [a][1..] == [];
  }

  lemma TwoSteps(cfg: Config, s: State, a: Action, b: Action)
    requires Enabled(cfg, s, a) && Enabled(cfg, Apply(cfg, s, a), b)
    ensures Legal(cfg, s, [a, b]) && Exec(cfg, s, [a, b]) == Apply(cfg, Apply(cfg, s, a), b)
  {
    OneStep(cfg, Apply(cfg, s, a), b);
    assert [a, b][1..] == [b];
  }
}
