/** A worker as it is written (internal/notify/worker.go): the loop that takes a notification, sends it and reports, run
    while the dispatcher and every other goroutine may move in between. Each method advances the state machine of
    `Relay`. */
module WorkerLoop {
  import opened Relay
  import opened RelayInvariant
  import opened RelayProgress
  import opened RelayShutdown

  /** How a call of `Dequeue` ended; `Blocked` when it was not followed to its end. */
  datatype Next = Item | Stopped | Blocked

  predicate NoneBy(actions: seq<Action>, w: nat) {
    forall a | a in actions :: !(a.Work? && a.worker == w)
  }

  /** The other goroutines do what they can do, and do not act for worker `w`. */
  ghost predicate Lawful(cfg: Config, others: (nat, State) -> seq<Action>, w: nat) {
    && (forall n, s :: Legal(cfg, s, others(n, s)))
    && (forall n, s :: NoneBy(others(n, s), w))
  }

  /** Other goroutines that never move are lawful, so what follows is not about nothing. */
  lemma LawfulOthersExist(cfg: Config, w: nat) returns (others: (nat, State) -> seq<Action>)
    ensures Lawful(cfg, others, w)
  {
    others := (n: nat, s: State) => [];
  }

  /** How many `Send` calls of worker `w` have returned. */
  function SendsBy(log: seq<Event>, w: nat): nat {
    if log == [] then 0
    else
      var e := log[|log| - 1];
      SendsBy(log[..|log| - 1], w) + if e.SendReturned? && e.channel == w then 1 else 0
  }

  lemma SendsGrow(log: seq<Event>, e: Event, w: nat)
    ensures SendsBy(log + [e], w) == SendsBy(log, w) + if e.SendReturned? && e.channel == w then 1 else 0
  {
    assert (log + [e])[..|log|] == log;
  }

  /** Worker `w` stands where it stood and has sent what it had sent. */
  ghost predicate Aside(s: State, s': State, w: nat) {
    && w < |s.pipes.workers| && w < |s'.pipes.workers|
    && s'.pipes.workers[w] == s.pipes.workers[w]
    && SendsBy(s'.trace.log, w) == SendsBy(s.trace.log, w)
  }

  lemma TheirStepKeepsWorker(cfg: Config, s: State, a: Action, w: nat)
    requires Enabled(cfg, s, a) && !(a.Work? && a.worker == w) && w < |s.pipes.workers|
    ensures w < |Apply(cfg, s, a).pipes.workers| && Apply(cfg, s, a).pipes.workers[w] == s.pipes.workers[w]
  {
  }

  /** At most one event was added, and it is no `Send` of `w`. */
  ghost predicate AddsNoSend(log: seq<Event>, log': seq<Event>, w: nat) {
    log' == log || exists e: Event :: log' == log + [e] && !(e.SendReturned? && e.channel == w)
  }

  lemma OutsideAddsNoSend(cfg: Config, s: State, o: OutsideStep, w: nat)
    requires CanOutside(cfg, s, o)
    ensures AddsNoSend(s.trace.log, DoOutside(cfg, s, o).trace.log, w)
  {
  }

  lemma PollAddsNoSend(cfg: Config, s: State, p: PollStep, w: nat)
    requires CanPoll(cfg, s, p)
    ensures AddsNoSend(s.trace.log, DoPoll(cfg, s, p).trace.log, w)
  {
  }

  lemma WorkAddsNoSend(cfg: Config, s: State, v: nat, k: WorkStep, w: nat)
    requires CanWork(cfg, s.pipes, v, k) && v != w
    ensures AddsNoSend(s.trace.log, DoWork(cfg, s, v, k).trace.log, w)
  {
  }

  lemma TheirStepSendsNothing(cfg: Config, s: State, a: Action, w: nat)
    requires Enabled(cfg, s, a) && !(a.Work? && a.worker == w)
    ensures SendsBy(Apply(cfg, s, a).trace.log, w) == SendsBy(s.trace.log, w)
  {
    var log, log' := s.trace.log, Apply(cfg, s, a).trace.log;
    match a {
      case Outside(o) => OutsideAddsNoSend(cfg, s, o, w);
      case Poll(p) => PollAddsNoSend(cfg, s, p, w);
      case Shutdown(_) =>
      case Work(v, k) => WorkAddsNoSend(cfg, s, v, k, w);
    }
    if log' != log {
      var e: Event :| log' == log + [e] && !(e.SendReturned? && e.channel == w);
      SendsGrow(log, e, w);
    }
  }

  /** A worker never finds its context cancelled, because it has returned by then. */
  lemma OwnStepIsPossible(cfg: Config, s: State, w: nat)
    requires Reachable(cfg, s) && w < cfg.channels
    ensures Shape(cfg, s.pipes)
    ensures s.pipes.workers[w].Waiting? ==> !s.pipes.workersCancelled
    ensures s.pipes.workers[w].Reporting? ==> CanWork(cfg, s.pipes, w, Report)
    ensures s.pipes.workers[w].Exited? ==> s.pipes.queues[w].closed && s.pipes.queues[w].buffer == []
  {
    WorkersLeaveOnlyEmptyClosedQueues(cfg, s, w);
    WorkerNeverBlocksOnResults(cfg, s, w);
  }

  /** The newest result is that of sending `t` on channel `w`, which ended with `ok`. */
  ghost predicate Reports(s: State, t: Note, w: nat, ok: bool) {
    s.pipes.results != [] && s.pipes.results[|s.pipes.results| - 1] == SendResult(t, w, ok)
  }

  /** The worker waits, and there is nothing for it to do. */
  ghost predicate FindsNothing(p: Pipes, w: nat) {
    w < |p.workers| && w < |p.queues| && p.workers[w].Waiting? && p.queues[w].buffer == [] && !p.queues[w].done
  }

  class Worker {
    const cfg: Config
    const w: nat
    const others: (nat, State) -> seq<Action>
    const answers: (nat, Note) -> bool
    var state: State
    var turn: nat

    ghost predicate Valid()
      reads this
    {
      w < cfg.channels && Lawful(cfg, others, w) && Reachable(cfg, state) && Shape(cfg, state.pipes)
    }

    /** `answers` is what the channel makes of each `Send`, by their number and by the notification. */
    constructor (cfg: Config, w: nat, others: (nat, State) -> seq<Action>, answers: (nat, Note) -> bool)
      requires ValidConfig(cfg) && w < cfg.channels && Lawful(cfg, others, w)
      ensures Valid() && this.cfg == cfg && this.w == w && this.answers == answers
      ensures state == Init(cfg)
    {
      this.cfg, this.w, this.others, this.answers, turn := cfg, w, others, answers, 0;
      state := Init(cfg);
      new;
      assert Legal(cfg, Init(cfg), []) && state == Exec(cfg, Init(cfg), []);
    }

    /** One atomic step, of whichever goroutine. */
    method Do(a: Action)
      requires Valid() && Enabled(cfg, state, a)
      modifies this`state
      ensures Valid() && state == Apply(cfg, old(state), a)
    {
      ReachableStep(cfg, state, a);
      state := Apply(cfg, state, a);
      ReachableInv(cfg, state);
    }

    /** The others move. */
    method Yield()
      requires Valid()
      modifies this
      ensures Valid() && Aside(old(state), state, w)
    {
      var actions := others(turn, state);
      turn := turn + 1;
      assert NoneBy(actions, w);
      for i := 0 to |actions|
        invariant Valid() && Legal(cfg, state, actions[i..]) && Aside(old(state), state, w)
      {
        assert actions[i..][0] == actions[i] && actions[i..][1..] == actions[i + 1..];
        assert actions[i] in actions;
        TheirStepKeepsWorker(cfg, state, actions[i], w);
        TheirStepSendsNothing(cfg, state, actions[i], w);
        Do(actions[i]);
      }
    }

    /** `Dequeue` on the worker's queue, followed for at most `patience` turns of the others while it blocks. */
    method Dequeue(patience: nat) returns (next: Next)
      requires Valid() && state.pipes.workers[w].Polling?
      modifies this
      ensures Valid() && SendsBy(state.trace.log, w) == SendsBy(old(state.trace.log), w)
      ensures match next
              case Item => state.pipes.workers[w].Holding?
              case Stopped => state.pipes.workers[w].Exited?
              case Blocked => FindsNothing(state.pipes, w)
    {
      Yield();
      if state.pipes.queues[w].HasItem() {
        Do(Work(w, Take));
        return Item;
      }
      Do(Work(w, TryMisses));
      next := Await(patience);
    }

    /** The blocking `select`. */
    method Await(patience: nat) returns (next: Next)
      requires Valid() && state.pipes.workers[w].Waiting?
      modifies this
      ensures Valid() && SendsBy(state.trace.log, w) == SendsBy(old(state.trace.log), w)
      ensures match next
              case Item => state.pipes.workers[w].Holding?
              case Stopped => state.pipes.workers[w].Exited?
              case Blocked => FindsNothing(state.pipes, w)
    {
      var left: nat := patience;
      Yield();
      while !state.pipes.queues[w].HasItem() && !state.pipes.queues[w].done && left > 0
        invariant Valid() && state.pipes.workers[w].Waiting?
        invariant SendsBy(state.trace.log, w) == SendsBy(old(state.trace.log), w)
        decreases left
      {
        left := left - 1;
        Yield();
      }
      OwnStepIsPossible(cfg, state, w);
      if state.pipes.workersCancelled {
        assert false;
      }
      if
      case state.pipes.queues[w].HasItem() =>
        Do(Work(w, Take));
        next := Item;
      case state.pipes.queues[w].done =>
        Do(Work(w, WaitSeesDone));
        next := Drain();
      case !state.pipes.queues[w].HasItem() && !state.pipes.queues[w].done =>
        next := Blocked;
    }

    /** The inner `select` after the close signal. */
    method Drain() returns (next: Next)
      requires Valid() && state.pipes.workers[w].Draining?
      modifies this
      ensures Valid() && SendsBy(state.trace.log, w) == SendsBy(old(state.trace.log), w)
      ensures if next.Item? then state.pipes.workers[w].Holding? else next.Stopped? && state.pipes.workers[w].Exited?
    {
      Yield();
      if state.pipes.queues[w].HasItem() {
        Do(Work(w, Take));
        next := Item;
      } else {
        Do(Work(w, DrainMisses));
        next := Stopped;
      }
    }

    /** `Send`, and the push of its result, good or bad as the channel has it, which never waits. */
    method SendAndReport()
      requires Valid() && state.pipes.workers[w].Holding?
      modifies this
      ensures Valid() && state.pipes.workers[w].Polling?
      ensures SendsBy(state.trace.log, w) == SendsBy(old(state.trace.log), w) + 1
      ensures Reports(state, old(state.pipes.workers[w].note), w,
                      answers(SendsBy(old(state.trace.log), w), old(state.pipes.workers[w].note)))
    {
      Send();
      Yield();
      OwnStepIsPossible(cfg, state, w);
      Do(Work(w, Report));
    }

    /** `Send`, which ends as the channel has it. */
    method Send()
      requires Valid() && state.pipes.workers[w].Holding?
      modifies this
      ensures Valid() && SendsBy(state.trace.log, w) == SendsBy(old(state.trace.log), w) + 1
      ensures var n := old(state.pipes.workers[w].note);
              state.pipes.workers[w]
              == Reporting(SendResult(n, w, answers(SendsBy(old(state.trace.log), w), n)))
    {
      Yield();
      var n := state.pipes.workers[w].note;
      var ok := answers(SendsBy(state.trace.log, w), n);
      SendsGrow(state.trace.log, SendReturned(w, n, ok), w);
      Do(Work(w, SendReturns(ok)));
    }

    /** `Run`, followed through at most `rounds` notifications. It sends each notification it takes once, counts them
        right, and if it returns, its queue is closed and nothing is left in it. */
    method Run(rounds: nat, patience: nat) returns (processed: nat, returned: bool)
      requires Valid() && state.pipes.workers[w].Polling?
      modifies this
      ensures Valid() && processed <= rounds
      ensures SendsBy(state.trace.log, w) == SendsBy(old(state.trace.log), w) + processed
      ensures returned <==> state.pipes.workers[w].Exited?
      ensures returned ==> state.pipes.queues[w].closed && state.pipes.queues[w].buffer == []
      ensures !returned ==> processed == rounds || FindsNothing(state.pipes, w)
    {
      processed := 0;
      while processed < rounds
        invariant Valid() && processed <= rounds && state.pipes.workers[w].Polling?
        invariant SendsBy(state.trace.log, w) == SendsBy(old(state.trace.log), w) + processed
        decreases rounds - processed
      {
        var next := Dequeue(patience);
        if next.Stopped? {
          OwnStepIsPossible(cfg, state, w);
          return processed, true;
        }
        if next.Blocked? {
          return processed, false;
        }
        SendAndReport();
        processed := processed + 1;
      }
      returned := false;
    }
  }
}
