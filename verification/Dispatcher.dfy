/** The dispatcher as it is written (internal/notify/dispatcher.go, with `Enqueue` of queue.go as it meets it): loops
    and local counters over the shared state, with every other goroutine free to move in between. Each method advances
    the state machine of `Relay`, so whatever holds of reachable states holds wherever a method stands; and each method
    terminates, whatever the others do. */
module Dispatchers {
  import opened Alerts
  import opened StoreSpec
  import opened Relay
  import opened RelayInvariant
  import opened RelayTheorems
  import opened RelayVersions
  import opened RelayProgress
  import opened DispatcherSteps
  import opened RelaySettlement
  import opened RelayShutdown

  /** Everything the dispatcher does not decide: what the other goroutines and the outside world do at its n-th chance
      to be interrupted, which goroutine runs when it blocks, whether a store call fails, what a query answers, and the
      clock. */
  datatype World = World(
    others: (nat, State) -> seq<Action>,
    wakes: State -> Action,
    storeFails: (nat, State) -> bool,
    answer: (nat, Table) -> seq<string>,
    now: (nat, nat) -> Time)

  /** The others only do what they can do, a blocked dispatcher leaves the processor to a worker that can move if
      there is one, and the query answers as specified. */
  ghost predicate Lawful(cfg: Config, world: World) {
    && (forall n, s :: Legal(cfg, s, world.others(n, s)))
    && (forall n, s :: OnlyTheirs(world.others(n, s)))
    && (forall s: State :: WorkerCanMove(cfg, s.pipes) ==> world.wakes(s).Work? && Enabled(cfg, s, world.wakes(s)))
    && (forall n, t :: PendingAnswer(t, cfg.batchSize, world.answer(n, t)))
  }

  /** Nobody cancels the dispatcher's context. */
  ghost predicate Calm(world: World) {
    forall n, s :: NoneCancels(world.others(n, s))
  }

  predicate NoneCancels(actions: seq<Action>) {
    Outside(SignalArrives) !in actions && Outside(CancelDispatcher) !in actions
  }

  /** In a calm world the context is as it was. */
  ghost predicate SameContext(world: World, s: State, s': State) {
    Calm(world) ==> s'.host.cancelled == s.host.cancelled
  }

  lemma TheirStepKeepsContext(cfg: Config, world: World, s: State, n: nat, at: State, a: Action)
    requires Enabled(cfg, s, a) && Theirs(a) && a in world.others(n, at)
    ensures SameContext(world, s, Apply(cfg, s, a))
  {
    assert Calm(world) ==> NoneCancels(world.others(n, at));
  }

  ghost predicate StoreAlwaysWorks(world: World) {
    forall n, s :: !world.storeFails(n, s)
  }

  ghost predicate StoreAlwaysFails(world: World) {
    forall n, s :: world.storeFails(n, s)
  }

  /** The store calls of the dispatcher end as the store has it. */
  ghost predicate StoreIsHeard(world: World, log: seq<Event>) {
    && (StoreAlwaysWorks(world) ==> forall e | e in log :: !e.FetchFailed? && !e.MarkFailed?)
    && (StoreAlwaysFails(world) ==> forall e | e in log :: !e.Fetched? && !e.Marked?)
  }

  predicate IsStoreCall(a: Action) {
    a.Poll? && (a.poll.Fetch? || a.poll.FetchFails? || a.poll.MarkSent? || a.poll.MarkSentFails?)
  }

  predicate HasFailed(a: Action) {
    a.Poll? && (a.poll.FetchFails? || a.poll.MarkSentFails?)
  }

  predicate IsStoreAnswer(e: Event) {
    e.Fetched? || e.FetchFailed? || e.Marked? || e.MarkFailed?
  }

  lemma OutsideIsNoStoreAnswer(cfg: Config, s: State, a: OutsideStep)
    requires CanOutside(cfg, s, a)
    ensures forall e | e in DoOutside(cfg, s, a).trace.log :: e in s.trace.log || !IsStoreAnswer(e)
  {
  }

  lemma WorkIsNoStoreAnswer(cfg: Config, s: State, w: nat, a: WorkStep)
    requires CanWork(cfg, s.pipes, w, a)
    ensures forall e | e in DoWork(cfg, s, w, a).trace.log :: e in s.trace.log || !IsStoreAnswer(e)
  {
  }

  lemma PollHearsStore(cfg: Config, s: State, a: PollStep)
    requires CanPoll(cfg, s, a)
    ensures forall e | e in DoPoll(cfg, s, a).trace.log ::
              || e in s.trace.log || !IsStoreAnswer(e)
              || (IsStoreCall(Poll(a)) && (HasFailed(Poll(a)) <==> e.FetchFailed? || e.MarkFailed?))
  {
  }

  /** Only the store calls matter for that. */
  lemma StepHearsStore(cfg: Config, world: World, s: State, a: Action)
    requires StoreIsHeard(world, s.trace.log) && Enabled(cfg, s, a)
    requires IsStoreCall(a) ==>
               (StoreAlwaysWorks(world) ==> !HasFailed(a)) && (StoreAlwaysFails(world) ==> HasFailed(a))
    ensures StoreIsHeard(world, Apply(cfg, s, a).trace.log)
  {
    match a
    case Outside(o) => OutsideIsNoStoreAnswer(cfg, s, o);
    case Poll(p) => PollHearsStore(cfg, s, p);
    case Shutdown(_) =>
    case Work(w, k) => WorkIsNoStoreAnswer(cfg, s, w, k);
  }

  ghost function SomeWork(cfg: Config, p: Pipes): Action {
    if WorkerCanMove(cfg, p) then (var w, k :| CanWork(cfg, p, w, k); Work(w, k)) else Work(0, TryMisses)
  }

  ghost function SomeAnswer(limit: nat, t: Table): (keys: seq<string>)
    ensures PendingAnswer(t, limit, keys)
  {
    AnswerIsPossible(limit, t);
    var keys :| PendingAnswer(t, limit, keys);
    keys
  }

  lemma AnswerIsPossible(limit: nat, t: Table)
    ensures exists keys :: PendingAnswer(t, limit, keys)
  {
    var keys := AnswerExists(t, limit);
  }

  /** Such a world is possible, so what follows is not about nothing. */
  lemma LawfulWorldExists(cfg: Config) returns (world: World)
    ensures Lawful(cfg, world)
  {
    world := World((n: nat, s: State) => [], (s: State) => SomeWork(cfg, s.pipes),
                   (n: nat, s: State) => false, (n: nat, t: Table) => SomeAnswer(cfg.batchSize, t),
                   (n: nat, i: nat) => 0);
  }

  class Dispatcher {
    const cfg: Config
    const world: World
    var state: State
    var turn: nat

    ghost predicate Valid()
      reads this
    {
      Lawful(cfg, world) && Reachable(cfg, state) && StoreIsHeard(world, state.trace.log)
    }

    constructor (cfg: Config, world: World)
      requires ValidConfig(cfg) && Lawful(cfg, world)
      ensures Valid() && this.cfg == cfg && this.world == world
      ensures state == Init(cfg)
    {
      this.cfg, this.world, this.turn := cfg, world, 0;
      this.state := Init(cfg);
      new;
      assert Legal(cfg, Init(cfg), []) && state == Exec(cfg, Init(cfg), []);
    }

    /** One step of the machine. */
    method Do(a: Action)
      requires Valid() && Enabled(cfg, state, a)
      requires IsStoreCall(a) ==>
                 (StoreAlwaysWorks(world) ==> !HasFailed(a)) && (StoreAlwaysFails(world) ==> HasFailed(a))
      modifies this`state
      ensures Valid() && state == Apply(cfg, old(state), a)
    {
      ReachableStep(cfg, state, a);
      StepHearsStore(cfg, world, state, a);
      state := Apply(cfg, state, a);
    }

    /** The others move. */
    method Yield()
      requires Valid()
      modifies this
      ensures Valid() && Undisturbed(cfg, old(state), state) && SameContext(world, old(state), state)
    {
      var actions := world.others(turn, state);
      turn := turn + 1;
      assert OnlyTheirs(actions);
      for i := 0 to |actions|
        invariant Valid() && Legal(cfg, state, actions[i..])
        invariant Undisturbed(cfg, old(state), state) && SameContext(world, old(state), state)
      {
        ghost var before := state;
        assert actions[i..][0] == actions[i] && actions[i..][1..] == actions[i + 1..];
        assert actions[i] in actions;
        TheirStepDisturbsNothing(cfg, state, actions[i]);
        TheirStepKeepsContext(cfg, world, state, old(turn), old(state), actions[i]);
        Do(actions[i]);
        UndisturbedTwice(cfg, old(state), before, state);
      }
    }

    /** The same, for the shutdown, which asks the store nothing. */
    method Wait()
      requires Valid()
      modifies this
      ensures Valid() && Undisturbed(cfg, old(state), state) && SameContext(world, old(state), state)
      ensures NoQuerySince(old(state.trace.log), state.trace.log)
    {
      Yield();
      ForeignIsNoQuery(old(state.trace.log), state.trace.log, old(state.loop));
    }

    /** A goroutine that can move runs while the dispatcher is blocked. */
    method Block()
      requires Valid() && WorkerCanMove(cfg, state.pipes)
      modifies this
      ensures Valid() && Undisturbed(cfg, old(state), state) && state.host == old(state.host)
      ensures ReachableRank(cfg, state) < ReachableRank(cfg, old(state))
    {
      var a := world.wakes(state);
      WorkDisturbsNothing(cfg, state, a.worker, a.work);
      Do(a);
    }

    /** The `select` of `Enqueue`: any ready case. */
    method Select() returns (ok: bool)
      requires Valid() && state.loop.pc.Enqueuing?
      modifies this`state
      ensures Valid() && SelectEffect(old(state), state, ok) && state.host == old(state.host)
    {
      SelectIsReady(cfg, state);
      var queue := state.pipes.queues[state.loop.channel];
      if
      case queue.HasRoom() =>
        Do(Poll(Offer));
        ok := true;
      case state.loop.contextDone =>
        Do(Poll(EnqueueExpires));
        ok := false;
      case queue.done =>
        Do(Poll(EnqueueSeesDone));
        ok := false;
    }

    /** `q.Enqueue` on the queue of the current channel: the closed check, then the `select`. */
    method Enqueue() returns (ok: bool)
      requires Valid() && state.loop.pc.FanOut? && state.loop.channel < cfg.channels
      modifies this
      ensures Valid() && EnqueueEffect(old(state), state, ok) && SameContext(world, old(state), state)
    {
      Yield();
      LoadFindsOpen(cfg, state);
      if state.pipes.queues[state.loop.channel].closed {
        assert false;
      }
      ghost var loading := state;
      Do(Poll(LoadClosed));
      ghost var checked := state;
      Yield();
      ghost var selecting := state;
      ok := Select();
      EnqueueSteps(cfg, old(state), loading, checked, selecting, state, ok);
    }

    /** The first half of `fanOutAndCollect`: the note is offered to every channel in turn. */
    method FanOut() returns (enqueued: nat)
      requires Valid() && state.loop.pc.FanOut? && state.loop.channel == 0 && state.loop.enqueued == 0
      modifies this
      ensures Valid() && FanningOutEffect(old(state), state, cfg.channels, enqueued)
      ensures SameContext(world, old(state), state)
    {
      ReachableInv(cfg, state);
      enqueued := 0;
      for c := 0 to cfg.channels
        invariant Valid() && FanningOutEffect(old(state), state, c, enqueued)
        invariant SameContext(world, old(state), state)
      {
        ghost var before := state;
        var ok := Enqueue();
        FanOutOneMore(old(state), before, state, c, enqueued, ok);
        if !ok {
          continue;
        }
        enqueued := enqueued + 1;
      }
    }

    /** `<-resultCh` */
    method AwaitResult() returns (r: SendResult)
      requires Valid() && state.loop.pc.Collecting? && state.loop.remaining > 0
      modifies this
      ensures Valid() && Undisturbed(cfg, old(state), state) && SameContext(world, old(state), state)
      ensures state.pipes.results != [] && r == state.pipes.results[0]
    {
      Yield();
      while state.pipes.results == []
        invariant Valid() && Undisturbed(cfg, old(state), state) && SameContext(world, old(state), state)
        decreases ReachableRank(cfg, state)
      {
        ghost var before := state;
        ghost var w, k := OwingWorkerCanMove(cfg, state);
        Block();
        ghost var woken := state;
        Yield();
        UndisturbedTwice(cfg, before, woken, state);
        UndisturbedTwice(cfg, old(state), before, state);
      }
      r := state.pipes.results[0];
    }

    /** The second half: exactly as many results as were enqueued, each of them this group's. */
    method CollectResults(enqueued: nat) returns (allOK: bool)
      requires Valid() && state.loop.pc.Collecting? && state.loop.remaining == enqueued && state.loop.allOK
      requires state.loop.at < |state.loop.batch|
      modifies this
      ensures Valid() && CollectingEffect(old(state), state, 0, allOK) && SameContext(world, old(state), state)
    {
      allOK := true;
      for i := 0 to enqueued
        invariant Valid() && CollectingEffect(old(state), state, enqueued - i, allOK)
        invariant SameContext(world, old(state), state)
      {
        ghost var before := state;
        var r := AwaitResult();
        ResultsBelongToCurrentGroup(cfg, state, 0);
        if r.GroupKey() != Current(state.loop).body.groupKey {
          assert false;
        }
        ghost var waiting := state;
        Do(Poll(Collect));
        CollectOneMore(cfg, old(state), before, waiting, state, allOK);
        if !r.ok {
          allOK := false;
        }
      }
    }

    /** The store call of `MarkSent`, which may fail. */
    method CallStore()
      requires Valid() && state.loop.pc.Marking? && state.loop.at < |state.loop.batch|
      modifies this`state
      ensures Valid() && state.loop == NextGroup(old(state.loop)) && state.host == old(state.host)
      ensures exists e :: IsAttempt(e) && Token(e) == Current(old(state.loop))
                          && state.trace.log == old(state.trace.log) + [e]
    {
      RowsAreFiledUnderTheirKey(cfg, state);
      ReachableInv(cfg, state);
      ghost var log, t := state.trace.log, Current(state.loop);
      if world.storeFails(turn, state) {
        Do(Poll(MarkSentFails));
        assert state.trace.log == log + [MarkFailed(t)];
      } else {
        Do(Poll(PollStep.MarkSent));
        assert state.trace.log == log + [Marked(t)];
      }
    }

    /** `d.store.MarkSent` */
    method MarkSent()
      requires Valid() && state.loop.pc.Marking? && state.loop.at < |state.loop.batch|
      modifies this
      ensures Valid() && AddsRound(old(state.trace.log), state.trace.log, Current(old(state.loop)))
      ensures SameContext(world, old(state), state)
      ensures state.loop == NextGroup(old(state.loop)).(contextDone := state.loop.contextDone)
    {
      Yield();
      ghost var log, t := state.trace.log, Current(state.loop);
      AddForeign(old(state.trace.log), old(state.trace.log), log, old(state.loop));
      CallStore();
      ghost var e :| IsAttempt(e) && Token(e) == t && state.trace.log == log + [e];
      AddOne(old(state.trace.log), log, e, t);
    }

    /** `fanOutAndCollect` */
    method FanOutAndCollect()
      requires Valid() && state.loop.pc.FanOut? && state.loop.channel == 0 && state.loop.enqueued == 0
      modifies this
      ensures Valid() && RoundEffect(cfg, old(state), state) && SameContext(world, old(state), state)
    {
      var enqueued := FanOut();
      ghost var fanned := state;
      NothingOpenToEnqueue(cfg, state);
      Do(Poll(EndFanOut));
      if enqueued == 0 {
        RoundIsOver(cfg, old(state), state);
        return;
      }
      CollectAndMark(enqueued);
      OfferedStays(cfg, old(state), fanned, state);
      RoundIsOver(cfg, old(state), state);
    }

    /** What follows an enqueue that was accepted. */
    method CollectAndMark(enqueued: nat)
      requires Valid() && state.loop.pc.Collecting? && state.loop.remaining == enqueued && state.loop.allOK
      requires state.loop.at < |state.loop.batch|
      modifies this
      ensures Valid() && SameContext(world, old(state), state) && AtNextGroup(old(state.loop), state.loop)
      ensures AddsRound(old(state.trace.log), state.trace.log, Current(old(state.loop)))
    {
      var allOK := CollectResults(enqueued);
      ghost var log := state.trace.log;
      Do(Poll(EndCollect));
      if !allOK {
        return;
      }
      MarkSent();
      AddTwice(old(state.trace.log), log, state.trace.log, Current(old(state.loop)));
    }

    /** `poll`: one query, then one round for each group it returned. */
    method PollOnce()
      requires Valid() && state.loop.pc.Idle?
      modifies this
      ensures Valid() && state.loop.pc.Idle? && Quiescent(cfg, state) && SameContext(world, old(state), state)
      ensures PollEffect(cfg, old(state.trace.log), state.trace.log)
    {
      ghost var l := state.loop;
      Yield();
      ghost var asked := state.trace.log;
      if world.storeFails(turn, state) {
        Do(Poll(FetchFails));
        PollEnds(cfg, old(state.trace.log), asked, FetchFailed, state, l);
        return;
      }
      var keys, at := world.answer(turn, state.db.table), turn;
      turn := turn + 1;
      var stamps := seq(|keys|, i requires 0 <= i < |keys| => world.now(at, i));
      FetchIsPossible(cfg, state, keys, stamps);
      ghost var batch := Tickets(state.db, state.trace.rounds, keys, stamps);
      Do(Poll(Fetch(keys, stamps)));
      ghost var fetched := state.trace.log;
      if |keys| == 0 || cfg.channels == 0 {
        PollEnds(cfg, old(state.trace.log), asked, Fetched(batch), state, l);
        return;
      }
      HandleBatch(batch);
      PollEnds(cfg, old(state.trace.log), asked, Fetched(batch), state, l);
    }

    /** The loop of `poll` over the fetched groups. */
    method HandleBatch(ghost batch: seq<Note>)
      requires Valid() && state.loop.pc.FanOut? && state.loop.batch == batch && |batch| > 0
      requires state.loop.at == 0 && state.loop.channel == 0 && state.loop.enqueued == 0
      modifies this
      ensures Valid() && state.loop.pc.Idle? && SameContext(world, old(state), state)
      ensures NoQuerySince(old(state.trace.log), state.trace.log)
      ensures forall i | 0 <= i < |batch| :: AllAnswered(cfg, state.trace.log, batch[i])
    {
      for n := 0 to |state.loop.batch|
        invariant Valid() && state.loop.batch == batch && SameContext(world, old(state), state)
        invariant if n == |batch| then state.loop.pc.Idle?
                  else state.loop.pc.FanOut? && state.loop.at == n && state.loop.channel == 0
                       && state.loop.enqueued == 0
        invariant NoQuerySince(old(state.trace.log), state.trace.log)
        invariant forall j | 0 <= j < n :: AllAnswered(cfg, state.trace.log, batch[j])
      {
        ghost var before := state;
        FanOutAndCollect();
        NoQueryInRound(old(state.trace.log), before.trace.log, state.trace.log, Current(before.loop));
        forall j | 0 <= j < n ensures AllAnswered(cfg, state.trace.log, batch[j]) {
          StayAllAnswered(cfg, before.trace.log, state.trace.log, batch[j]);
        }
      }
    }

    /** `shutdown`: close every queue, in whatever order the map is walked; wait for the workers; close and drain the
        results channel. */
    method ShutDown()
      requires Valid() && state.loop.pc.Idle? && state.host.cancelled
      modifies this
      ensures Valid() && state.loop.pc.Returned? && Drained(cfg, state)
      ensures NoQuerySince(old(state.trace.log), state.trace.log)
    {
      CloseQueues();
      ghost var closed := state.trace.log;
      AwaitWorkers();
      NoQueryTwice(old(state.trace.log), closed, state.trace.log);
      ghost var gone := state.trace.log;
      DrainResults();
      NoQueryTwice(old(state.trace.log), gone, state.trace.log);
      NothingIsLeftBehind(cfg, state);
    }

    method CloseQueues()
      requires Valid() && state.loop.pc.Idle? && state.host.cancelled
      modifies this
      ensures Valid() && state.loop.pc.ClosingQueues? && ClosedExcept(cfg, state, {})
      ensures NoQuerySince(old(state.trace.log), state.trace.log)
    {
      var todo := Below(cfg.channels);
      QueuesStartOpen(cfg, state, todo);
      Do(Shutdown(StopPolling));
      while todo != {}
        invariant Valid() && state.loop.pc.ClosingQueues? && ClosedExcept(cfg, state, todo)
        invariant forall q | q in todo :: q < cfg.channels
        invariant NoQuerySince(old(state.trace.log), state.trace.log)
        decreases todo
      {
        ghost var before := state.trace.log;
        var q :| q in todo;
        Close(q, todo);
        NoQueryTwice(old(state.trace.log), before, state.trace.log);
        todo := todo - {q};
      }
    }

    /** `q.Close`: the swap, then `close(q.done)`. */
    method Close(q: nat, ghost todo: set<nat>)
      requires Valid() && state.loop.pc.ClosingQueues? && ClosedExcept(cfg, state, todo)
      requires q in todo && q < cfg.channels
      modifies this
      ensures Valid() && state.loop.pc.ClosingQueues? && ClosedExcept(cfg, state, todo - {q})
      ensures NoQuerySince(old(state.trace.log), state.trace.log)
    {
      Wait();
      ReachableInv(cfg, state);
      if !state.pipes.queues[q].closed {
        ghost var waited := state.trace.log;
        Swap(q, todo);
        NoQueryTwice(old(state.trace.log), waited, state.trace.log);
        ReachableInv(cfg, state);
        Do(Shutdown(SignalDone));
      }
    }

    /** The swap, won, and whatever others do before the signal. */
    method Swap(q: nat, ghost todo: set<nat>)
      requires Valid() && state.loop.pc.ClosingQueues? && ClosedExcept(cfg, state, todo)
      requires q in todo && q < cfg.channels && !state.pipes.queues[q].closed
      modifies this
      ensures Valid() && state.loop.pc.SignallingDone? && state.loop.channel == q
      ensures ClosedExcept(cfg, state, todo - {q}) && NoQuerySince(old(state.trace.log), state.trace.log)
    {
      SwapCloses(cfg, state, q, todo);
      Do(Shutdown(SwapClosed(q)));
      Wait();
      ReachableInv(cfg, state);
    }

    /** `workerWg.Wait()` */
    method AwaitWorkers()
      requires Valid() && state.loop.pc.ClosingQueues? && ClosedExcept(cfg, state, {})
      modifies this
      ensures Valid() && state.loop.pc.ReleasingWorkers?
      ensures NoQuerySince(old(state.trace.log), state.trace.log)
    {
      Do(Shutdown(QueuesClosed));
      Wait();
      while !AllExited(state.pipes.workers)
        invariant Valid() && state.loop.pc.AwaitingWorkers?
        invariant NoQuerySince(old(state.trace.log), state.trace.log)
        decreases ReachableRank(cfg, state)
      {
        ghost var before := state;
        SomeoneIsLeft(cfg, state);
        Block();
        ghost var woken := state;
        Yield();
        UndisturbedTwice(cfg, before, woken, state);
        ForeignIsNoQuery(before.trace.log, state.trace.log, before.loop);
        NoQueryTwice(old(state.trace.log), before.trace.log, state.trace.log);
      }
      Do(Shutdown(WorkersGone));
    }

    /** `workerCancel`, `close(resultCh)` and the final drain. */
    method DrainResults()
      requires Valid() && state.loop.pc.ReleasingWorkers?
      modifies this
      ensures Valid() && state.loop.pc.Returned?
      ensures NoQuerySince(old(state.trace.log), state.trace.log)
    {
      Wait();
      Do(Shutdown(ReleaseWorkers));
      ghost var released := state.trace.log;
      Wait();
      NoQueryTwice(old(state.trace.log), released, state.trace.log);
      Do(Shutdown(CloseResults));
      ghost var closed := state.trace.log;
      Wait();
      NoQueryTwice(old(state.trace.log), closed, state.trace.log);
      while state.pipes.results != []
        invariant Valid() && state.loop.pc.DrainingResults?
        invariant NoQuerySince(old(state.trace.log), state.trace.log)
        decreases |state.pipes.results|
      {
        Do(Shutdown(DrainResult));
      }
      Do(Shutdown(EndDrain));
    }

    /** `Run`, when the ticker is taken `ticks` times before the cancelled context is. Every tick taken is answered by
        one poll, and if nobody cancels before, all of them are. It returns with every group it fetched handled,
        everything that was accepted sent and collected, and nothing left in the pipes. */
    method Run(ticks: nat)
      requires Valid() && state.loop.pc.Idle?
      modifies this
      ensures Valid() && state.loop.pc.Returned? && Drained(cfg, state)
      ensures old(state.trace.log) <= state.trace.log
      ensures Queries(state.trace.log) <= Queries(old(state.trace.log)) + ticks
      ensures Calm(world) && !old(state.host.cancelled) ==>
                Queries(state.trace.log) == Queries(old(state.trace.log)) + ticks
      ensures BatchesHandled(cfg, old(state.trace.log), state.trace.log)
    {
      var left: nat := ticks;
      while true
        invariant Valid() && state.loop.pc.Idle?
        invariant left <= ticks && PolledSince(cfg, old(state.trace.log), state.trace.log, ticks - left)
        invariant Calm(world) && !old(state.host.cancelled) ==> !state.host.cancelled
        decreases left
      {
        ghost var log := state.trace.log;
        Wait();
        WaitingPollsNothing(cfg, old(state.trace.log), log, state, ticks - left);
        log := state.trace.log;
        if left == 0 && !state.host.cancelled {
          ReachableInv(cfg, state);
          Do(Outside(SignalArrives));
        }
        if
        case state.host.cancelled =>
          ShutDown();
          WaitingPollsNothing(cfg, old(state.trace.log), log, state, ticks - left);
          return;
        case left > 0 =>
          PollOnce();
          PollingPollsOnce(cfg, old(state.trace.log), log, state, ticks - left);
          left := left - 1;
      }
    }
  }
}
