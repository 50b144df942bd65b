/** The dispatcher and its workers never wait for ever on each other: some step is always possible, and every step
    brings the end of the poll, or of the shutdown, nearer. */
module RelayProgress {
  import opened Alerts
  import opened Basics
  import opened StoreSpec
  import opened Relay
  import opened RelayInvariant
  import opened RelayHistory
  import opened RelayTheorems
  import opened RelayVersions

  // ----- bounds on what is in flight

  lemma {:induction false} CountBelow(n: nat, s: set<nat>)
    requires forall x | x in s :: x < n
    ensures |s| <= n
  {
    if n > 0 {
      CountBelow(n - 1, s - {n - 1});
      assert n - 1 in s ==> s == (s - {n - 1}) + {n - 1};
      assert n - 1 !in s ==> s == s - {n - 1};
    } else {
      assert s == {};
    }
  }

  ghost function Senders(results: seq<SendResult>): set<nat> {
    set r | r in results :: r.channel
  }

  lemma {:induction false} SendersCount(results: seq<SendResult>)
    requires forall i, j | 0 <= i < j < |results| :: results[i].channel != results[j].channel
    ensures |Senders(results)| == |results|
  {
    if results != [] {
      var n := |results| - 1;
      SendersCount(results[..n]);
      assert results == results[..n] + [results[n]];
      assert Senders(results) == Senders(results[..n]) + {results[n].channel};
    }
  }

  /** A queue never holds more than one notification. */
  lemma QueueHoldsAtMostOne(cfg: Config, s: State, c: nat)
    requires Reachable(cfg, s) && c < cfg.channels
    ensures c < |s.pipes.queues| && |s.pipes.queues[c].buffer| <= 1
  {
    ReachableInv(cfg, s);
    var buffer := s.pipes.queues[c].buffer;
    if |buffer| > 1 {
      assert InFlight(s, buffer[0]) && InFlight(s, buffer[1]);
      assert AcceptedBalance(s, c, buffer[0]) && Accepts(s, c, buffer[0]) <= 1;
      OccursTwice(buffer, 0, 1);
    }
  }

  lemma CapacityExceedsChannels(cfg: Config)
    requires ValidConfig(cfg)
    ensures cfg.channels < ResultCapacity(cfg)
  {
    var n, b: nat := cfg.channels, cfg.batchSize - 1;
    assert n * (b + 1) == n * b + n;
    assert n * b >= 0;
  }

  lemma ResultsComeFromDistinctChannels(cfg: Config, s: State)
    requires Inv(cfg, s)
    ensures |Senders(s.pipes.results)| == |s.pipes.results|
    ensures forall x | x in Senders(s.pipes.results) :: x < cfg.channels
  {
    var results := s.pipes.results;
    forall i, j | 0 <= i < j < |results| ensures results[i].channel != results[j].channel {
      TwoResultsClash(cfg, s, i, j);
    }
    forall x | x in Senders(results) ensures x < cfg.channels {
      var r :| r in results && r.channel == x;
      assert InFlight(s, r.note);
    }
    SendersCount(results);
  }

  /** No result ever waits for room: there are never more results than channels, and a worker with a report in hand
      finds a free slot at once. */
  lemma WorkerNeverBlocksOnResults(cfg: Config, s: State, w: nat)
    requires Reachable(cfg, s)
    ensures |s.pipes.results| <= cfg.channels
    ensures w < |s.pipes.workers| && s.pipes.workers[w].Reporting? ==>
              |s.pipes.results| < cfg.channels && CanWork(cfg, s.pipes, w, Report) && !s.pipes.resultsClosed
  {
    ReachableInv(cfg, s);
    var senders := Senders(s.pipes.results);
    ResultsComeFromDistinctChannels(cfg, s);
    CountBelow(cfg.channels, senders);
    if w < |s.pipes.workers| && s.pipes.workers[w].Reporting? {
      ReporterIsNotAmongResults(cfg, s, w);
      CountBelow(cfg.channels, senders + {w});
      CapacityExceedsChannels(cfg);
    }
  }

  lemma ReporterIsNotAmongResults(cfg: Config, s: State, w: nat)
    requires Inv(cfg, s) && w < cfg.channels && s.pipes.workers[w].Reporting?
    ensures w !in Senders(s.pipes.results) && !s.pipes.resultsClosed
  {
    var r := s.pipes.workers[w].result;
    var t := r.note;
    assert InFlight(s, t) && r == SendResult(t, w, r.ok);
    assert AcceptedBalance(s, w, t) && SentBalance(s, w, t, true) && SentBalance(s, w, t, false);
    assert Accepts(s, w, t) <= 1;
    assert InReport(s, w, t, r.ok) == 1;
    forall x | x in s.pipes.results ensures x.channel != w {
      assert InFlight(s, x.note) && x == SendResult(x.note, x.channel, x.ok);
      assert x in multiset(s.pipes.results);
    }
  }

  /** At the select of `Enqueue` the queue is open and empty: the only way not to be accepted is an expired context. */
  lemma EnqueueAlwaysHasRoom(cfg: Config, s: State)
    requires Reachable(cfg, s) && s.loop.pc.Enqueuing?
    ensures CanPoll(cfg, s, Offer) && !CanPoll(cfg, s, EnqueueSeesDone)
    ensures s.pipes.queues[s.loop.channel].buffer == []
  {
    ReachableInv(cfg, s);
    var c, t := s.loop.channel, Current(s.loop);
    PollingFindsQueuesOpen(cfg, s);
    var buffer := s.pipes.queues[c].buffer;
    assert buffer != [] ==> InFlight(s, buffer[0]);
    assert c !in AcceptedBy(cfg.channels, s.trace.log, t);
    assert AcceptedBalance(s, c, t) && QueueInv(cfg, s, c);
    assert Accepts(s, c, t) == 0;
  }

  // ----- some step is always possible

  predicate Busy(s: State) {
    !s.loop.pc.Idle? && !s.loop.pc.Returned?
  }

  /** A step of the dispatcher that does not begin a poll or the shutdown, or a step of a worker. */
  predicate Finishing(a: Action) {
    || (a.Poll? && !a.poll.Fetch? && !a.poll.FetchFails?)
    || (a.Shutdown? && !a.shutdown.StopPolling?)
    || a.Work?
  }

  /** A step with no new group and no failure in it: fetches, enqueues, sends and marks succeed. */
  predicate Smooth(a: Action) {
    match a
    case Outside(o) => !o.SaveCommits?
    case Poll(p) => !p.FetchFails? && !p.EnqueueExpires? && !p.EnqueueSeesDone? && !p.MarkSentFails?
    case Shutdown(_) => true
    case Work(_, k) => k != SendReturns(false)
  }

  /** The note waits in the queue of `c`, or its worker has it in hand, unsent or unreported. */
  predicate Owes(s: State, c: nat, t: Note)
    requires c < |s.pipes.queues| && c < |s.pipes.workers|
  {
    || t in s.pipes.queues[c].buffer
    || (s.pipes.workers[c].Holding? && s.pipes.workers[c].note == t)
    || (s.pipes.workers[c].Reporting? && s.pipes.workers[c].result.note == t)
  }

  /** While a result is owed and none is there, a worker that owes one can move. */
  lemma OwingWorkerCanMove(cfg: Config, s: State) returns (w: nat, k: WorkStep)
    requires Reachable(cfg, s) && s.loop.pc.Collecting? && s.loop.remaining > 0 && s.pipes.results == []
    ensures CanWork(cfg, s.pipes, w, k) && k != SendReturns(false)
    ensures s.loop.at < |s.loop.batch| && Owes(s, w, Current(s.loop))
  {
    ReachableInv(cfg, s);
    var n, log, t := cfg.channels, s.trace.log, Current(s.loop);
    var accepted, heard := AcceptedBy(n, log, t), CollectedFrom(n, log, t);
    if accepted <= heard {
      SubsetSize(accepted, heard);
      assert false;
    }
    w :| w in accepted && w !in heard;
    assert AcceptedBalance(s, w, t) && SentBalance(s, w, t, true) && SentBalance(s, w, t, false);
    assert Accepts(s, w, t) > 0 && Collects(s, w, t, true) == 0 && Collects(s, w, t, false) == 0;
    assert QueueInv(cfg, s, w) && WorkerInv(s, w);
    if s.pipes.workers[w].Holding? {
      k := SendReturns(true);
    } else if s.pipes.workers[w].Reporting? {
      WorkerNeverBlocksOnResults(cfg, s, w);
      k := Report;
    } else {
      assert InQueue(s, w, t) > 0;
      k := Take;
    }
  }

  /** Once its queue is closed a worker that has not returned can move. */
  lemma ClosedWorkerCanMove(cfg: Config, s: State, w: nat) returns (k: WorkStep)
    requires Reachable(cfg, s) && s.loop.pc.AwaitingWorkers? && w < cfg.channels
    requires w < |s.pipes.workers| && !s.pipes.workers[w].Exited?
    ensures CanWork(cfg, s.pipes, w, k) && k != SendReturns(false)
  {
    ReachableInv(cfg, s);
    OutsideRoundMeansQuiescent(cfg, s);
    assert QueueInv(cfg, s, w) && WorkerInv(s, w);
    k := match s.pipes.workers[w]
      case Polling => TryMisses
      case Waiting => WaitSeesDone
      case _ => DrainMisses;
  }

  lemma CollectingCanMove(cfg: Config, s: State) returns (a: Action)
    requires Reachable(cfg, s) && s.loop.pc.Collecting?
    ensures Enabled(cfg, s, a) && Finishing(a) && Smooth(a)
  {
    ReachableInv(cfg, s);
    if s.loop.remaining == 0 {
      a := Poll(EndCollect);
    } else if s.pipes.results != [] {
      a := Poll(Collect);
    } else {
      var w, k := OwingWorkerCanMove(cfg, s);
      a := Work(w, k);
    }
  }

  lemma ShutdownCanMove(cfg: Config, s: State) returns (a: Action)
    requires Reachable(cfg, s) && !BeforeShutdown(s.loop) && !s.loop.pc.Returned?
    ensures Enabled(cfg, s, a) && Finishing(a) && Smooth(a)
  {
    ReachableInv(cfg, s);
    OutsideRoundMeansQuiescent(cfg, s);
    match s.loop.pc
    case ClosingQueues =>
      if q: nat :| q < |s.pipes.queues| && !s.pipes.queues[q].closed {
        a := Shutdown(SwapClosed(q));
      } else {
        a := Shutdown(QueuesClosed);
      }
    case SignallingDone => a := Shutdown(SignalDone);
    case AwaitingWorkers =>
      if w: nat :| w < |s.pipes.workers| && !s.pipes.workers[w].Exited? {
        var k := ClosedWorkerCanMove(cfg, s, w);
        a := Work(w, k);
      } else {
        a := Shutdown(WorkersGone);
      }
    case ReleasingWorkers => a := Shutdown(ReleaseWorkers);
    case ClosingResults => a := Shutdown(CloseResults);
    case _ => a := Shutdown(EndDrain);
  }

  /** A busy dispatcher is never stuck, and need not fail anything to go on, whatever the contexts, the store and
      the HTTP side do. */
  lemma BusyDispatcherCanMove(cfg: Config, s: State) returns (a: Action)
    requires Reachable(cfg, s) && Busy(s)
    ensures Enabled(cfg, s, a) && Finishing(a) && Smooth(a)
  {
    ReachableInv(cfg, s);
    if !BeforeShutdown(s.loop) {
      a := ShutdownCanMove(cfg, s);
    } else if s.loop.pc.FanOut? {
      a := if s.loop.channel < cfg.channels then Poll(LoadClosed) else Poll(EndFanOut);
    } else if s.loop.pc.Enqueuing? {
      EnqueueAlwaysHasRoom(cfg, s);
      a := Poll(Offer);
    } else if s.loop.pc.Collecting? {
      a := CollectingCanMove(cfg, s);
    } else {
      RowsAreFiledUnderTheirKey(cfg, s);
      a := Poll(MarkSent);
    }
  }

  // ----- every step comes nearer to the end

  function WorkerRank(w: Worker): nat {
    match w
    case Holding(_) => 6
    case Reporting(_) => 5
    case Polling => 3
    case Waiting => 2
    case Draining => 1
    case Exited => 0
  }

  function ChannelRank(q: NoteQueue, w: Worker): nat {
    6 * |q.buffer| + WorkerRank(w) + (if q.closed then 0 else 3)
  }

  function ChannelsRank(queues: seq<NoteQueue>, workers: seq<Worker>): nat
    requires |queues| == |workers|
  {
    if queues == [] then 0
    else ChannelRank(queues[0], workers[0]) + ChannelsRank(queues[1..], workers[1..])
  }

  lemma {:induction false} ChannelsRankUpdate(queues: seq<NoteQueue>, workers: seq<Worker>, c: nat,
                                              q: NoteQueue, w: Worker)
    requires c < |queues| == |workers|
    ensures ChannelsRank(queues[c := q], workers[c := w]) + ChannelRank(queues[c], workers[c])
         == ChannelsRank(queues, workers) + ChannelRank(q, w)
  {
    if c == 0 {
      assert queues[c := q][1..] == queues[1..] && workers[c := w][1..] == workers[1..];
    } else {
      ChannelsRankUpdate(queues[1..], workers[1..], c - 1, q, w);
      assert queues[c := q][1..] == queues[1..][c - 1 := q] && workers[c := w][1..] == workers[1..][c - 1 := w];
    }
  }

  function GroupRank(cfg: Config): nat {
    9 * cfg.channels + 4
  }

  /** How much the dispatcher itself has left to do in the current group or stage. */
  function StageRank(cfg: Config, l: Loop): nat {
    match l.pc
    case FanOut => (if l.channel < cfg.channels then 9 * (cfg.channels - l.channel) else 0) + 3
    case Enqueuing => (if l.channel < cfg.channels then 9 * (cfg.channels - l.channel) else 0) + 2
    case Collecting => 2
    case Marking => 1
    case SignallingDone => 8
    case ClosingQueues => 6
    case AwaitingWorkers => 5
    case ReleasingWorkers => 4
    case ClosingResults => 3
    case DrainingResults => 2
    case _ => 0
  }

  function GroupsLeft(l: Loop): nat {
    if InRound(l) && l.at < |l.batch| then |l.batch| - l.at - 1 else 0
  }

  function Rank(cfg: Config, s: State): nat
    requires Shape(cfg, s.pipes)
  {
    GroupsLeft(s.loop) * GroupRank(cfg) + StageRank(cfg, s.loop)
    + ChannelsRank(s.pipes.queues, s.pipes.workers) + |s.pipes.results|
  }

  lemma OutsideKeepsRank(cfg: Config, s: State, a: OutsideStep)
    requires Shape(cfg, s.pipes) && CanOutside(cfg, s, a)
    ensures Shape(cfg, DoOutside(cfg, s, a).pipes) && Rank(cfg, DoOutside(cfg, s, a)) == Rank(cfg, s)
  {
  }

  lemma WorkLowersRank(cfg: Config, s: State, w: nat, a: WorkStep)
    requires Shape(cfg, s.pipes) && CanWork(cfg, s.pipes, w, a)
    ensures Shape(cfg, DoWork(cfg, s, w, a).pipes) && Rank(cfg, DoWork(cfg, s, w, a)) < Rank(cfg, s)
  {
    var p, p' := s.pipes, DoWork(cfg, s, w, a).pipes;
    ChannelsRankUpdate(p.queues, p.workers, w, p'.queues[w], p'.workers[w]);
    assert p'.queues == p.queues[w := p'.queues[w]] && p'.workers == p.workers[w := p'.workers[w]];
  }

  lemma ShutdownLowersRank(cfg: Config, s: State, a: ShutdownStep)
    requires Shape(cfg, s.pipes) && CanShutdown(s, a) && !a.StopPolling?
    ensures Shape(cfg, DoShutdown(s, a).pipes) && Rank(cfg, DoShutdown(s, a)) < Rank(cfg, s)
  {
    var p, p' := s.pipes, DoShutdown(s, a).pipes;
    if a.SwapClosed? || a.SignalDone? {
      var q := if a.SwapClosed? then a.queue else s.loop.channel;
      ChannelsRankUpdate(p.queues, p.workers, q, p'.queues[q], p.workers[q]);
      assert p'.queues == p.queues[q := p'.queues[q]] && p.workers == p.workers[q := p.workers[q]];
    }
  }

  lemma NextGroupLowersRank(cfg: Config, l: Loop)
    requires InRound(l) && l.at < |l.batch|
    ensures GroupsLeft(NextGroup(l)) * GroupRank(cfg) + StageRank(cfg, NextGroup(l))
          < GroupsLeft(l) * GroupRank(cfg) + 1
  {
    if GroupsLeft(l) > 0 {
      assert GroupsLeft(NextGroup(l)) == GroupsLeft(l) - 1;
      assert (GroupsLeft(l) - 1) * GroupRank(cfg) == GroupsLeft(l) * GroupRank(cfg) - GroupRank(cfg);
    } else {
      assert NextGroup(l).pc.Idle?;
      assert GroupsLeft(NextGroup(l)) == 0;
    }
  }

  lemma PollLowersRank(cfg: Config, s: State, a: PollStep)
    requires Shape(cfg, s.pipes) && FlagsInv(cfg, s) && CanPoll(cfg, s, a) && !a.Fetch? && !a.FetchFails?
    ensures Shape(cfg, DoPoll(cfg, s, a).pipes) && Rank(cfg, DoPoll(cfg, s, a)) < Rank(cfg, s)
  {
    var p, l, s' := s.pipes, s.loop, DoPoll(cfg, s, a);
    if LeavesRound(l, a) {
      NextGroupLowersRank(cfg, l);
    } else if a.Offer? {
      var c := l.channel;
      ChannelsRankUpdate(p.queues, p.workers, c, s'.pipes.queues[c], p.workers[c]);
      assert s'.pipes.queues == p.queues[c := s'.pipes.queues[c]] && p.workers == p.workers[c := p.workers[c]];
      assert GroupsLeft(s'.loop) == GroupsLeft(l);
    } else {
      assert GroupsLeft(s'.loop) == GroupsLeft(l);
    }
  }

  lemma FinishingStepLowersRank(cfg: Config, s: State, a: Action)
    requires Shape(cfg, s.pipes) && FlagsInv(cfg, s) && Enabled(cfg, s, a) && Finishing(a)
    ensures Shape(cfg, Apply(cfg, s, a).pipes) && Rank(cfg, Apply(cfg, s, a)) < Rank(cfg, s)
  {
    match a
    case Poll(p) => PollLowersRank(cfg, s, p);
    case Shutdown(d) => ShutdownLowersRank(cfg, s, d);
    case Work(w, k) => WorkLowersRank(cfg, s, w, k);
  }

  // ----- runs

  function FinishingCount(actions: seq<Action>): nat {
    if actions == [] then 0 else (if Finishing(actions[0]) then 1 else 0) + FinishingCount(actions[1..])
  }

  /** However the outside world interferes, the dispatcher and its workers take at most `Rank` steps before the poll, or
      the shutdown, is over. */
  lemma {:induction false} FinishingIsBounded(cfg: Config, s: State, actions: seq<Action>)
    requires Inv(cfg, s) && Legal(cfg, s, actions)
    requires forall a | a in actions :: Finishing(a) || a.Outside?
    ensures Shape(cfg, Exec(cfg, s, actions).pipes)
    ensures FinishingCount(actions) + Rank(cfg, Exec(cfg, s, actions)) <= Rank(cfg, s)
    decreases |actions|
  {
    if actions != [] {
      var a := actions[0];
      StepKeepsInv(cfg, s, a);
      if a.Outside? {
        OutsideKeepsRank(cfg, s, a.outside);
      } else {
        FinishingStepLowersRank(cfg, s, a);
      }
      FinishingIsBounded(cfg, Apply(cfg, s, a), actions[1..]);
    }
  }

  lemma {:induction false} LegalAppend(cfg: Config, s: State, actions: seq<Action>, a: Action)
    requires Legal(cfg, s, actions) && Enabled(cfg, Exec(cfg, s, actions), a)
    ensures Legal(cfg, s, actions + [a])
    ensures Exec(cfg, s, actions + [a]) == Apply(cfg, Exec(cfg, s, actions), a)
    decreases |actions|
  {
    if actions == [] {
      assert [a][1..] == [];
      assert actions + [a] == [a];
    } else {
      LegalAppend(cfg, Apply(cfg, s, actions[0]), actions[1..], a);
      assert (actions + [a])[1..] == actions[1..] + [a];
    }
  }

  lemma ReachableStep(cfg: Config, s: State, a: Action)
    requires Reachable(cfg, s) && Enabled(cfg, s, a)
    ensures Reachable(cfg, Apply(cfg, s, a))
  {
    var actions :| Legal(cfg, Init(cfg), actions) && s == Exec(cfg, Init(cfg), actions);
    LegalAppend(cfg, Init(cfg), actions, a);
  }

  lemma FinishingStepKeepsHost(cfg: Config, s: State, a: Action)
    requires Enabled(cfg, s, a) && !a.Outside?
    ensures Apply(cfg, s, a).host == s.host
  {
  }

  // ----- queries and their context

  predicate IsFetch(a: Action) {
    a.Poll? && a.poll.Fetch?
  }

  /** No query of the run succeeds on a context that is already done. `GetPending` passes the dispatcher's context
      on, and database/sql refuses a query whose context is done when it starts. The guard of `Fetch` is wider, so
      that it also covers a query during which the context is cancelled; what holds of all runs holds of these. */
  ghost predicate QueriesLive(cfg: Config, s: State, actions: seq<Action>)
    requires Legal(cfg, s, actions)
    decreases |actions|
  {
    actions == []
    || ((IsFetch(actions[0]) ==> !s.host.cancelled) && QueriesLive(cfg, Apply(cfg, s, actions[0]), actions[1..]))
  }

  /** After cancellation there is none. */
  lemma {:induction false} CancelledFetchesNothing(cfg: Config, s: State, actions: seq<Action>)
    requires Legal(cfg, s, actions) && QueriesLive(cfg, s, actions) && s.host.cancelled
    ensures forall a | a in actions :: !IsFetch(a)
    decreases |actions|
  {
    if actions != [] {
      var s' := Apply(cfg, s, actions[0]);
      assert s'.host.cancelled;
      CancelledFetchesNothing(cfg, s', actions[1..]);
      assert forall a | a in actions :: a == actions[0] || a in actions[1..];
    }
  }

  /** A run without fetches needs no live context. */
  lemma {:induction false} WithoutFetchIsLive(cfg: Config, s: State, actions: seq<Action>)
    requires Legal(cfg, s, actions) && forall a | a in actions :: !IsFetch(a)
    ensures QueriesLive(cfg, s, actions)
    decreases |actions|
  {
    if actions != [] {
      assert actions[0] in actions;
      WithoutFetchIsLive(cfg, Apply(cfg, s, actions[0]), actions[1..]);
    }
  }

  lemma {:induction false} LiveConcat(cfg: Config, s: State, first: seq<Action>, second: seq<Action>)
    requires Legal(cfg, s, first) && QueriesLive(cfg, s, first)
    requires Legal(cfg, Exec(cfg, s, first), second) && QueriesLive(cfg, Exec(cfg, s, first), second)
    ensures Legal(cfg, s, first + second) && QueriesLive(cfg, s, first + second)
    decreases |first|
  {
    LegalConcat(cfg, s, first, second);
    if first == [] {
      assert first + second == second;
    } else {
      LiveConcat(cfg, Apply(cfg, s, first[0]), first[1..], second);
      assert (first + second)[1..] == first[1..] + second;
    }
  }

  /** Between polls the guard of `Fetch` asks for a legal answer and nothing more; with a live context every such answer
      is possible. */
  lemma FetchIsPossible(cfg: Config, s: State, keys: seq<string>, stamps: seq<Time>)
    requires Reachable(cfg, s) && s.loop.pc.Idle?
    requires PendingAnswer(s.db.table, cfg.batchSize, keys) && |stamps| == |keys|
    ensures CanPoll(cfg, s, Fetch(keys, stamps))
  {
    ReachableInv(cfg, s);
    ReachableHistory(cfg, s);
  }

  /** From every reachable state the dispatcher and its workers can run, by themselves, to the end of the poll or of the
      shutdown. */
  lemma {:induction false} CanFinish(cfg: Config, s: State) returns (actions: seq<Action>)
    requires Reachable(cfg, s)
    ensures forall a | a in actions :: Finishing(a) && Smooth(a)
    ensures Legal(cfg, s, actions)
    ensures var end := Exec(cfg, s, actions); !Busy(end) && Reachable(cfg, end) && end.host == s.host
    decreases ReachableRank(cfg, s)
  {
    if Busy(s) {
      ReachableInv(cfg, s);
      var a := BusyDispatcherCanMove(cfg, s);
      FinishingStepLowersRank(cfg, s, a);
      FinishingStepKeepsHost(cfg, s, a);
      ReachableStep(cfg, s, a);
      var rest := CanFinish(cfg, Apply(cfg, s, a));
      actions := [a] + rest;
      assert actions[1..] == rest;
    } else {
      actions := [];
    }
  }

  function ReachableRank(cfg: Config, s: State): nat {
    if Shape(cfg, s.pipes) then Rank(cfg, s) else 0
  }

  /** After cancellation `Run` can always reach its return: the poll in progress ends, the select of `Run` then finds
      the context done, and the shutdown completes. Together with `FinishingIsBounded`, only a select that keeps
      preferring the ticker over the cancelled context could put this off. */
  lemma ShutdownCanComplete(cfg: Config, s: State) returns (actions: seq<Action>)
    requires Reachable(cfg, s) && s.host.cancelled
    ensures forall a | a in actions :: Finishing(a) || a == Shutdown(StopPolling)
    ensures Legal(cfg, s, actions)
    ensures var end := Exec(cfg, s, actions); end.loop.pc.Returned? && Reachable(cfg, end) && end.host == s.host
  {
    actions := CanFinish(cfg, s);
    var mid := Exec(cfg, s, actions);
    if mid.loop.pc.Idle? {
      LegalAppend(cfg, s, actions, Shutdown(StopPolling));
      var closing := Apply(cfg, mid, Shutdown(StopPolling));
      ReachableStep(cfg, mid, Shutdown(StopPolling));
      var rest := CanFinish(cfg, closing);
      ReachableInv(cfg, closing);
      FinishingNeverIdles(cfg, closing, rest);
      LegalConcat(cfg, s, actions + [Shutdown(StopPolling)], rest);
      actions := actions + [Shutdown(StopPolling)] + rest;
    }
  }

  lemma {:induction false} LegalConcat(cfg: Config, s: State, first: seq<Action>, second: seq<Action>)
    requires Legal(cfg, s, first) && Legal(cfg, Exec(cfg, s, first), second)
    ensures Legal(cfg, s, first + second)
    ensures Exec(cfg, s, first + second) == Exec(cfg, Exec(cfg, s, first), second)
    decreases |first|
  {
    if first == [] {
      assert first + second == second;
    } else {
      LegalConcat(cfg, Apply(cfg, s, first[0]), first[1..], second);
      assert (first + second)[1..] == first[1..] + second;
    }
  }

  /** The shutdown never goes back to polling. */
  lemma {:induction false} FinishingNeverIdles(cfg: Config, s: State, actions: seq<Action>)
    requires Inv(cfg, s) && Legal(cfg, s, actions) && !BeforeShutdown(s.loop)
    ensures !BeforeShutdown(Exec(cfg, s, actions).loop)
    decreases |actions|
  {
    if actions != [] {
      StepKeepsInv(cfg, s, actions[0]);
      ShutdownIsFinal(cfg, s, actions[0]);
      FinishingNeverIdles(cfg, Apply(cfg, s, actions[0]), actions[1..]);
    }
  }

  lemma ShutdownIsFinal(cfg: Config, s: State, a: Action)
    requires Enabled(cfg, s, a) && !BeforeShutdown(s.loop)
    ensures !BeforeShutdown(Apply(cfg, s, a).loop)
  {
  }
}
