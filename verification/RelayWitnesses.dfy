/** Runs that show where the code does less than its comments and documentation say. */
module RelayWitnesses {
  import opened Alerts
  import opened StoreSpec
  import opened Relay
  import opened RelayHistory
  import opened RelayVersions
  import opened RelayProgress

  /** Every configuration whose sizes pass `validate` starts, so what is said of reachable states is not about
      nothing. */
  lemma ValidatedConfigStarts(cfg: Config)
    requires 1 <= cfg.batchSize <= cfg.queueSize
    ensures Reachable(cfg, Init(cfg))
  {
    assert Legal(cfg, Init(cfg), []) && Exec(cfg, Init(cfg), []) == Init(cfg);
  }

  /** One pending group, fetched, and the fan-out about to begin. */
  lemma FirstFetch(cfg: Config, g: AlertGroup) returns (s: State)
    requires ValidConfig(cfg) && cfg.channels >= 1 && ValidGroup(g, cfg.maxAlerts)
    ensures Reachable(cfg, s)
    ensures s.loop.pc.FanOut? && s.loop.batch == [Note(NewNotification(g, 0), 0, 0)]
    ensures s.loop.at == 0 && s.loop.channel == 0 && s.loop.enqueued == 0
    ensures s.db == Database(map[g.groupKey := Entry(g, Pending, 0)], map[g.groupKey := 0])
    ensures s.host == Host(Serving, false, false, true)
    ensures s.pipes == Init(cfg).pipes
    ensures s.trace.log == [Saved(g), Fetched(s.loop.batch)]
  {
    var s0 := Init(cfg);
    assert Legal(cfg, s0, []) && Exec(cfg, s0, []) == s0;
    var save := Outside(SaveCommits(g, 0));
    ReachableStep(cfg, s0, save);
    var s1 := Apply(cfg, s0, save);
    assert PendingKeys(s1.db.table) == {g.groupKey};
    var fetch := Poll(Fetch([g.groupKey], [0]));
    ReachableStep(cfg, s1, fetch);
    s := Apply(cfg, s1, fetch);
  }

  /** Channel 0 takes the current notification. */
  lemma FirstChannelAccepts(cfg: Config, s: State) returns (s': State)
    requires Reachable(cfg, s) && cfg.channels >= 1 && cfg.queueSize >= 1
    requires s.loop.pc.FanOut? && s.loop.channel == 0 && s.loop.at < |s.loop.batch| && s.pipes == Init(cfg).pipes
    ensures Reachable(cfg, s')
    ensures s'.loop.pc.FanOut? && s'.loop.channel == 1 && s'.loop.enqueued == s.loop.enqueued + 1
    ensures s'.loop.batch == s.loop.batch && s'.loop.at == s.loop.at
    ensures s'.pipes == PushCurrent(s.pipes, s.loop)
    ensures s'.db == s.db && s'.host == s.host
    ensures s'.trace.log == s.trace.log + [Accepted(0, Current(s.loop))]
  {
    ReachableStep(cfg, s, Poll(LoadClosed));
    var s1 := Apply(cfg, s, Poll(LoadClosed));
    ReachableStep(cfg, s1, Poll(Offer));
    s' := Apply(cfg, s1, Poll(Offer));
  }

  /** The fan-out is over with channel 0 alone, and its worker takes the notification. */
  lemma FirstWorkerTakes(cfg: Config, s: State) returns (s': State)
    requires Reachable(cfg, s) && cfg.channels >= 1 && s.loop.at < |s.loop.batch|
    requires s.loop.pc.FanOut? && s.loop.channel == cfg.channels && s.loop.enqueued == 1
    requires |s.pipes.queues| == |s.pipes.workers| == cfg.channels
    requires s.pipes.queues[0].buffer == [Current(s.loop)] && s.pipes.workers[0].Polling? && s.pipes.results == []
    ensures Reachable(cfg, s')
    ensures s'.loop == s.loop.(pc := Collecting, remaining := 1, allOK := true)
    ensures |s'.pipes.queues| == |s'.pipes.workers| == cfg.channels
    ensures s'.pipes.workers[0] == Holding(Current(s.loop)) && s'.pipes.results == []
    ensures s'.db == s.db && s'.host == s.host && s'.trace == s.trace
  {
    ReachableStep(cfg, s, Poll(EndFanOut));
    var s1 := Apply(cfg, s, Poll(EndFanOut));
    ReachableStep(cfg, s1, Work(0, Take));
    s' := Apply(cfg, s1, Work(0, Take));
  }

  /** That worker sends successfully and reports. */
  lemma FirstWorkerSends(cfg: Config, s: State) returns (s': State)
    requires Reachable(cfg, s) && cfg.channels >= 1 && s.loop.at < |s.loop.batch|
    requires |s.pipes.queues| == |s.pipes.workers| == cfg.channels
    requires s.pipes.workers[0] == Holding(Current(s.loop)) && s.pipes.results == []
    ensures Reachable(cfg, s') && s'.loop == s.loop
    ensures s'.pipes.results == [SendResult(Current(s.loop), 0, true)]
    ensures s'.db == s.db && s'.host == s.host
    ensures s'.trace.log == s.trace.log + [SendReturned(0, Current(s.loop), true)]
  {
    ReachableStep(cfg, s, Work(0, SendReturns(true)));
    var s1 := Apply(cfg, s, Work(0, SendReturns(true)));
    ReachableStep(cfg, s1, Work(0, Report));
    s' := Apply(cfg, s1, Work(0, Report));
  }

  /** The dispatcher collects that one result and is about to mark. */
  lemma DispatcherCollects(cfg: Config, s: State) returns (s': State)
    requires Reachable(cfg, s) && s.loop.at < |s.loop.batch|
    requires s.loop.pc.Collecting? && s.loop.remaining == 1 && s.loop.allOK
    requires s.pipes.results == [SendResult(Current(s.loop), 0, true)]
    ensures Reachable(cfg, s')
    ensures s'.loop.pc.Marking? && s'.loop.batch == s.loop.batch && s'.loop.at == s.loop.at
    ensures s'.db == s.db && s'.host == s.host
    ensures s'.trace.log == s.trace.log + [Collected(s.pipes.results[0])]
  {
    ReachableStep(cfg, s, Poll(Collect));
    var s1 := Apply(cfg, s, Poll(Collect));
    ReachableStep(cfg, s1, Poll(EndCollect));
    s' := Apply(cfg, s1, Poll(EndCollect));
  }

  /** A signal arrives before channel 1 is offered the notification, and its enqueue gives up. */
  lemma SecondChannelRefuses(cfg: Config, s: State) returns (s': State)
    requires Reachable(cfg, s) && cfg.channels == 2 && !s.host.signalled && s.loop.at < |s.loop.batch|
    requires s.loop.pc.FanOut? && s.loop.channel == 1 && |s.pipes.queues| == 2 && !s.pipes.queues[1].closed
    ensures Reachable(cfg, s')
    ensures s'.loop == s.loop.(channel := 2, contextDone := true) && s'.pipes == s.pipes && s'.db == s.db
    ensures s'.host == s.host.(signalled := true, cancelled := true)
    ensures s'.trace.log == s.trace.log + [ContextDone, Refused(1, Current(s.loop))]
  {
    ReachableStep(cfg, s, Outside(SignalArrives));
    var s1 := Apply(cfg, s, Outside(SignalArrives));
    ReachableStep(cfg, s1, Poll(LoadClosed));
    var s2 := Apply(cfg, s1, Poll(LoadClosed));
    ReachableStep(cfg, s2, Poll(EnqueueExpires));
    s' := Apply(cfg, s2, Poll(EnqueueExpires));
  }

  lemma DispatcherMarks(cfg: Config, s: State) returns (s': State)
    requires Reachable(cfg, s) && s.loop.pc.Marking? && s.host.main.Serving?
    requires s.loop.at < |s.loop.batch| && Current(s.loop).body.groupKey in s.db.table
    ensures Reachable(cfg, s')
    ensures s'.db.table == Mark(s.db.table, Current(s.loop).body.groupKey)
    ensures s'.trace.log == s.trace.log + [Marked(Current(s.loop))]
  {
    ReachableStep(cfg, s, Poll(MarkSent));
    s' := Apply(cfg, s, Poll(MarkSent));
  }

  /** A group taken to the point of being marked, on one channel. */
  lemma GroupIsDelivered(cfg: Config, g: AlertGroup) returns (s: State)
    requires ValidConfig(cfg) && cfg.channels == 1 && ValidGroup(g, cfg.maxAlerts)
    ensures Reachable(cfg, s) && s.loop.pc.Marking? && s.host == Host(Serving, false, false, true)
    ensures s.loop.at < |s.loop.batch| && Current(s.loop) == Note(NewNotification(g, 0), 0, 0)
    ensures s.db == Database(map[g.groupKey := Entry(g, Pending, 0)], map[g.groupKey := 0])
    ensures var t := Current(s.loop);
            s.trace.log == [Saved(g), Fetched([t]), Accepted(0, t), SendReturned(0, t, true),
                            Collected(SendResult(t, 0, true))]
  {
    var s0 := FirstFetch(cfg, g);
    var s1 := FirstChannelAccepts(cfg, s0);
    var held := FirstWorkerTakes(cfg, s1);
    var s2 := FirstWorkerSends(cfg, held);
    s := DispatcherCollects(cfg, s2);
  }

  /** The same, with a `Save` of its key slipping in just before. */
  lemma SaveSlipsIn(cfg: Config, g: AlertGroup, h: AlertGroup) returns (s: State, t: Note)
    requires ValidConfig(cfg) && cfg.channels == 1
    requires ValidGroup(g, cfg.maxAlerts) && ValidGroup(h, cfg.maxAlerts) && h.groupKey == g.groupKey
    ensures Reachable(cfg, s) && s.loop.pc.Marking? && s.host.main.Serving?
    ensures s.loop.at < |s.loop.batch| && Current(s.loop) == t
    ensures t == Note(NewNotification(g, 0), 0, 0)
    ensures s.db == Database(map[h.groupKey := Entry(h, Pending, 1)], map[h.groupKey := 5])
    ensures s.trace.log == [Saved(g), Fetched([t]), Accepted(0, t), SendReturned(0, t, true),
                            Collected(SendResult(t, 0, true)), Saved(h)]
  {
    var s0 := GroupIsDelivered(cfg, g);
    t := Current(s0.loop);
    var save := Outside(SaveCommits(h, 1));
    ReachableStep(cfg, s0, save);
    s := Apply(cfg, s0, save);
  }

  /** A `Save` between fetch and mark: for any two payloads of one key there is a run that ends with the row sent and
      holding the second payload, which no channel was ever given. */
  lemma SavedPayloadCanBeLost(cfg: Config, g: AlertGroup, h: AlertGroup) returns (s: State)
    requires ValidConfig(cfg) && cfg.channels == 1
    requires ValidGroup(g, cfg.maxAlerts) && ValidGroup(h, cfg.maxAlerts) && h.groupKey == g.groupKey
    ensures Reachable(cfg, s)
    ensures h.groupKey in s.db.table && s.db.table[h.groupKey] == Entry(h, Sent, 1)
    ensures h.groupKey in s.db.versions && !PayloadDelivered(s.trace.log, h.groupKey, s.db.versions[h.groupKey])
  {
    var s0, t := SaveSlipsIn(cfg, g, h);
    ReachableStep(cfg, s0, Poll(MarkSent));
    s := Apply(cfg, s0, Poll(MarkSent));
    assert s.trace.log == s0.trace.log + [Marked(t)];
  }

  /** A group taken to the point of being marked with its second channel skipped. */
  lemma SecondChannelIsSkipped(cfg: Config, g: AlertGroup) returns (s: State, t: Note)
    requires ValidConfig(cfg) && cfg.channels == 2 && ValidGroup(g, cfg.maxAlerts)
    ensures Reachable(cfg, s) && s.loop.pc.Marking? && s.host.main.Serving?
    ensures s.loop.at < |s.loop.batch| && Current(s.loop) == t && t.body.groupKey == g.groupKey
    ensures s.db.table == map[g.groupKey := Entry(g, Pending, 0)]
    ensures s.trace.log == [Saved(g), Fetched([t]), Accepted(0, t), ContextDone, Refused(1, t),
                            SendReturned(0, t, true), Collected(SendResult(t, 0, true))]
  {
    var s0 := FirstFetch(cfg, g);
    t := Current(s0.loop);
    var s1 := FirstChannelAccepts(cfg, s0);
    var s2 := SecondChannelRefuses(cfg, s1);
    var held := FirstWorkerTakes(cfg, s2);
    var s3 := FirstWorkerSends(cfg, held);
    s := DispatcherCollects(cfg, s3);
  }

  lemma SkipIsLogged(log: seq<Event>, g: AlertGroup, t: Note)
    requires log == [Saved(g), Fetched([t]), Accepted(0, t), ContextDone, Refused(1, t),
                     SendReturned(0, t, true), Collected(SendResult(t, 0, true))]
    ensures Marked(t) in log + [Marked(t)] && SkippedOn(log + [Marked(t)], 1, t)
  {
    assert (log + [Marked(t)])[7] == Marked(t) && (log + [Marked(t)])[4] == Refused(1, t);
  }

  /** A cancelled context during the fan-out: for any payload there is a run in which the group is marked sent although
      the second channel never had it. */
  lemma RefusedChannelDoesNotBlockMarking(cfg: Config, g: AlertGroup) returns (s: State, t: Note)
    requires ValidConfig(cfg) && cfg.channels == 2 && ValidGroup(g, cfg.maxAlerts)
    ensures Reachable(cfg, s)
    ensures t.body.groupKey == g.groupKey && Marked(t) in s.trace.log && SkippedOn(s.trace.log, 1, t)
    ensures g.groupKey in s.db.table && s.db.table[g.groupKey] == Entry(g, Sent, 0)
  {
    var s0;
    s0, t := SecondChannelIsSkipped(cfg, g);
    s := DispatcherMarks(cfg, s0);
    SkipIsLogged(s0.trace.log, g, t);
  }

  /** docs/architecture.md says the HTTP server stops before the dispatcher. The dispatcher context is a child of the
      signal context, so the dispatcher may be gone while the server still accepts and saves groups. */
  lemma DispatcherMayStopBeforeTheServer(cfg: Config, g: AlertGroup, now: Time) returns (s: State)
    requires ValidConfig(cfg) && ValidGroup(g, cfg.maxAlerts)
    ensures Reachable(cfg, s) && s.loop.pc.Returned? && s.host.main.Serving?
    ensures Enabled(cfg, s, Outside(SaveCommits(g, now)))
  {
    var s0 := Init(cfg);
    assert Legal(cfg, s0, []) && Exec(cfg, s0, []) == s0;
    ReachableStep(cfg, s0, Outside(SignalArrives));
    var s1 := Apply(cfg, s0, Outside(SignalArrives));
    var actions := ShutdownCanComplete(cfg, s1);
    s := Exec(cfg, s1, actions);
  }
}
