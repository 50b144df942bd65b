/** How fast a backlog of pending groups is worked off when nothing fails. */
module RelayBacklog {
  import opened Alerts
  import opened Basics
  import opened StoreSpec
  import opened Relay
  import opened RelayInvariant
  import opened RelayHistory
  import opened RelayVersions
  import opened RelayProgress

  ghost function UnfinishedKeys(l: Loop): set<string> {
    if InRound(l) then set i: nat | l.at <= i < |l.batch| :: l.batch[i].body.groupKey else {}
  }

  /** The pending groups that the current poll does not take. */
  ghost function LeftBehind(s: State): set<string> {
    PendingKeys(s.db.table) - UnfinishedKeys(s.loop)
  }

  /** No failure is on its way to the dispatcher, and what is left of the batch is still pending. */
  ghost predicate SmoothInv(cfg: Config, s: State) {
    var l, p := s.loop, s.pipes;
    && (forall w | 0 <= w < |p.workers| && p.workers[w].Reporting? :: p.workers[w].result.ok)
    && (forall i | 0 <= i < |p.results| :: p.results[i].ok)
    && (l.pc.Collecting? ==> l.allOK)
    && (FanningOut(l) ==> l.enqueued == l.channel)
    && (InRound(l) ==>
          && (forall i | l.at <= i < |l.batch| :: l.batch[i].body.groupKey in PendingKeys(s.db.table))
          && (forall i, j | l.at <= i < j < |l.batch| :: l.batch[i].body.groupKey != l.batch[j].body.groupKey))
  }

  lemma IdleIsSmooth(cfg: Config, s: State)
    requires Reachable(cfg, s) && s.loop.pc.Idle?
    ensures SmoothInv(cfg, s) && LeftBehind(s) == PendingKeys(s.db.table)
  {
    ReachableInv(cfg, s);
    OutsideRoundMeansQuiescent(cfg, s);
  }

  lemma FetchTakesTheBatch(cfg: Config, s: State, keys: seq<string>, stamps: seq<Time>)
    requires Reachable(cfg, s) && SmoothInv(cfg, s) && cfg.channels > 0
    requires CanPoll(cfg, s, Fetch(keys, stamps))
    ensures SmoothInv(cfg, DoFetch(cfg, s, keys, stamps))
    ensures LeftBehind(DoFetch(cfg, s, keys, stamps)) == PendingKeys(s.db.table) - KeySet(keys)
  {
    RowsAreFiledUnderTheirKey(cfg, s);
    var s' := DoFetch(cfg, s, keys, stamps);
    if InRound(s'.loop) {
      var batch := s'.loop.batch;
      assert forall i | 0 <= i < |batch| :: batch[i].body.groupKey == keys[i];
      assert UnfinishedKeys(s'.loop) == KeySet(keys);
    } else {
      assert KeySet(keys) == {};
    }
  }

  lemma MarkKeepsLeftBehind(cfg: Config, s: State)
    requires Inv(cfg, s) && SmoothInv(cfg, s) && CanPoll(cfg, s, MarkSent)
    ensures SmoothInv(cfg, DoPoll(cfg, s, MarkSent))
    ensures LeftBehind(DoPoll(cfg, s, MarkSent)) == LeftBehind(s)
  {
    var l, s' := s.loop, DoPoll(cfg, s, MarkSent);
    var k := Current(l).body.groupKey;
    MarkPending(s.db.table, k);
    assert UnfinishedKeys(s'.loop) == UnfinishedKeys(l) - {k} by {
      forall i: nat | l.at <= i < |l.batch| ensures l.batch[i].body.groupKey == k <==> i == l.at {}
    }
    OutsideRoundAfterMark(cfg, s);
  }

  lemma OutsideRoundAfterMark(cfg: Config, s: State)
    requires SmoothInv(cfg, s) && CanPoll(cfg, s, MarkSent)
    ensures SmoothInv(cfg, DoPoll(cfg, s, MarkSent))
  {
    var s' := DoPoll(cfg, s, MarkSent);
    MarkPending(s.db.table, Current(s.loop).body.groupKey);
    assert FanningOut(s'.loop) ==> s'.loop.enqueued == s'.loop.channel;
  }

  lemma PollKeepsLeftBehind(cfg: Config, s: State, a: PollStep)
    requires Inv(cfg, s) && SmoothInv(cfg, s) && CanPoll(cfg, s, a) && Smooth(Poll(a)) && !a.Fetch? && cfg.channels > 0
    ensures SmoothInv(cfg, DoPoll(cfg, s, a)) && LeftBehind(DoPoll(cfg, s, a)) == LeftBehind(s)
  {
    if a.MarkSent? {
      MarkKeepsLeftBehind(cfg, s);
    } else {
      PollLogs(cfg, s, a);
      var s' := DoPoll(cfg, s, a);
      assert InRound(s'.loop) && s'.loop.at == s.loop.at && s'.loop.batch == s.loop.batch by {
        PollingFindsQueuesOpen(cfg, s);
      }
      assert UnfinishedKeys(s'.loop) == UnfinishedKeys(s.loop);
    }
  }

  lemma OutsideKeepsLeftBehind(cfg: Config, s: State, a: OutsideStep)
    requires SmoothInv(cfg, s) && CanOutside(cfg, s, a) && Smooth(Outside(a))
    ensures SmoothInv(cfg, DoOutside(cfg, s, a)) && LeftBehind(DoOutside(cfg, s, a)) == LeftBehind(s)
  {
    assert UnfinishedKeys(DoOutside(cfg, s, a).loop) == UnfinishedKeys(s.loop);
  }

  lemma WorkKeepsLeftBehind(cfg: Config, s: State, w: nat, a: WorkStep)
    requires SmoothInv(cfg, s) && CanWork(cfg, s.pipes, w, a) && Smooth(Work(w, a))
    ensures SmoothInv(cfg, DoWork(cfg, s, w, a)) && LeftBehind(DoWork(cfg, s, w, a)) == LeftBehind(s)
  {
  }

  lemma ShutdownKeepsLeftBehind(cfg: Config, s: State, a: ShutdownStep)
    requires Flow(cfg, s) && SmoothInv(cfg, s) && CanShutdown(s, a)
    ensures SmoothInv(cfg, DoShutdown(s, a)) && LeftBehind(DoShutdown(s, a)) == LeftBehind(s)
  {
    OutsideRoundMeansQuiescent(cfg, s);
  }

  lemma OtherKeepsLeftBehind(cfg: Config, s: State, a: Action)
    requires Inv(cfg, s) && SmoothInv(cfg, s) && Enabled(cfg, s, a) && Smooth(a) && !a.Poll?
    ensures SmoothInv(cfg, Apply(cfg, s, a)) && LeftBehind(Apply(cfg, s, a)) == LeftBehind(s)
  {
    match a
    case Outside(o) => OutsideKeepsLeftBehind(cfg, s, o);
    case Work(w, k) => WorkKeepsLeftBehind(cfg, s, w, k);
    case Shutdown(d) => ShutdownKeepsLeftBehind(cfg, s, d);
  }

  function Fetches(actions: seq<Action>): nat {
    if actions == [] then 0
    else (if IsFetch(actions[0]) then 1 else 0) + Fetches(actions[1..])
  }

  /** `d` less `b`, but not below zero. */
  function Less(d: nat, b: nat): nat {
    if b <= d then d - b else 0
  }

  /** What the fetches of a run leave of `d`. */
  function Left(d: nat, b: nat, actions: seq<Action>): nat
    decreases |actions|
  {
    if actions == [] then d else Left(if IsFetch(actions[0]) then Less(d, b) else d, b, actions[1..])
  }

  lemma {:induction false} LeftClosedForm(d: nat, b: nat, actions: seq<Action>)
    ensures Left(d, b, actions) == Less(d, Fetches(actions) * b)
    decreases |actions|
  {
    if actions != [] {
      var k := Fetches(actions[1..]);
      LeftClosedForm(if IsFetch(actions[0]) then Less(d, b) else d, b, actions[1..]);
      assert (1 + k) * b == b + k * b;
    }
  }

  lemma AnswerLeaves(t: Table, limit: nat, keys: seq<string>)
    requires PendingAnswer(t, limit, keys)
    ensures |PendingKeys(t) - KeySet(keys)| == Less(|PendingKeys(t)|, limit)
  {
    CountLeft(t, keys);
  }

  lemma FetchLeaves(cfg: Config, s: State, keys: seq<string>, stamps: seq<Time>)
    requires Reachable(cfg, s) && SmoothInv(cfg, s) && cfg.channels > 0
    requires CanPoll(cfg, s, Fetch(keys, stamps))
    ensures |LeftBehind(DoFetch(cfg, s, keys, stamps))| == Less(|LeftBehind(s)|, cfg.batchSize)
  {
    FetchTakesTheBatch(cfg, s, keys, stamps);
    IdleIsSmooth(cfg, s);
    AnswerLeaves(s.db.table, cfg.batchSize, keys);
  }

  /** What one step does to the number of groups left behind. */
  lemma StepLeaves(cfg: Config, s: State, a: Action)
    requires Reachable(cfg, s) && SmoothInv(cfg, s) && cfg.channels > 0 && Enabled(cfg, s, a) && Smooth(a)
    ensures Reachable(cfg, Apply(cfg, s, a)) && SmoothInv(cfg, Apply(cfg, s, a))
    ensures |LeftBehind(Apply(cfg, s, a))|
            == if IsFetch(a) then Less(|LeftBehind(s)|, cfg.batchSize) else |LeftBehind(s)|
  {
    ReachableInv(cfg, s);
    ReachableStep(cfg, s, a);
    if IsFetch(a) {
      FetchTakesTheBatch(cfg, s, a.poll.keys, a.poll.stamps);
      FetchLeaves(cfg, s, a.poll.keys, a.poll.stamps);
    } else if a.Poll? {
      PollKeepsLeftBehind(cfg, s, a.poll);
    } else {
      OtherKeepsLeftBehind(cfg, s, a);
    }
  }

  /** Every fetch of the run takes a batch off what is left behind, and no other step changes how much that is. */
  ghost predicate StepsLeave(cfg: Config, s: State, actions: seq<Action>)
    requires Legal(cfg, s, actions)
    decreases |actions|
  {
    actions == []
    || var d, s' := |LeftBehind(s)|, Apply(cfg, s, actions[0]);
       && |LeftBehind(s')| == (if IsFetch(actions[0]) then Less(d, cfg.batchSize) else d)
       && StepsLeave(cfg, s', actions[1..])
  }

  /** Smooth runs keep the invariant and step down as said. */
  lemma {:induction false} RunStaysSmooth(cfg: Config, s: State, actions: seq<Action>)
    requires Reachable(cfg, s) && SmoothInv(cfg, s) && cfg.channels > 0
    requires Legal(cfg, s, actions) && forall a | a in actions :: Smooth(a)
    ensures Reachable(cfg, Exec(cfg, s, actions)) && SmoothInv(cfg, Exec(cfg, s, actions))
    ensures StepsLeave(cfg, s, actions)
    decreases |actions|
  {
    if actions != [] {
      assert actions[0] in actions;
      StepLeaves(cfg, s, actions[0]);
      RunStaysSmooth(cfg, Apply(cfg, s, actions[0]), actions[1..]);
    }
  }

  /** How much is left behind after the run. */
  lemma {:induction false} RunLeaves(cfg: Config, s: State, actions: seq<Action>)
    requires Legal(cfg, s, actions) && StepsLeave(cfg, s, actions)
    ensures |LeftBehind(Exec(cfg, s, actions))| == Left(|LeftBehind(s)|, cfg.batchSize, actions)
    decreases |actions|
  {
    if actions != [] {
      RunLeaves(cfg, Apply(cfg, s, actions[0]), actions[1..]);
    }
  }

  /** With no new groups and no failures, each poll takes exactly `batchSize` groups off the backlog, or all that is
      left: after any number of polls the backlog is what subtraction says, so `k` polls with `k * batchSize` at least
      the backlog empty it. */
  lemma PollsWorkOffTheBacklog(cfg: Config, s: State, actions: seq<Action>)
    requires Reachable(cfg, s) && s.loop.pc.Idle? && cfg.channels > 0
    requires Legal(cfg, s, actions) && forall a | a in actions :: Smooth(a)
    requires Exec(cfg, s, actions).loop.pc.Idle?
    ensures var before, after := |PendingKeys(s.db.table)|, |PendingKeys(Exec(cfg, s, actions).db.table)|;
            after == Less(before, Fetches(actions) * cfg.batchSize)
  {
    IdleIsSmooth(cfg, s);
    RunStaysSmooth(cfg, s, actions);
    RunLeaves(cfg, s, actions);
    IdleIsSmooth(cfg, Exec(cfg, s, actions));
    LeftClosedForm(|PendingKeys(s.db.table)|, cfg.batchSize, actions);
  }

  lemma {:induction false} RunWithoutFetchLeaves(cfg: Config, s: State, actions: seq<Action>)
    requires Reachable(cfg, s) && SmoothInv(cfg, s) && cfg.channels > 0
    requires Legal(cfg, s, actions) && Fetches(actions) == 0 && forall a | a in actions :: Smooth(a)
    ensures Reachable(cfg, Exec(cfg, s, actions)) && LeftBehind(Exec(cfg, s, actions)) == LeftBehind(s)
    decreases |actions|
  {
    if actions != [] {
      var a := actions[0];
      ReachableInv(cfg, s);
      ReachableStep(cfg, s, a);
      if a.Poll? {
        PollKeepsLeftBehind(cfg, s, a.poll);
      } else {
        OtherKeepsLeftBehind(cfg, s, a);
      }
      RunWithoutFetchLeaves(cfg, Apply(cfg, s, a), actions[1..]);
    }
  }

  /** And each poll marks exactly the groups it fetched, none younger than any group it left behind. */
  lemma PollMarksItsBatch(cfg: Config, s: State, keys: seq<string>, stamps: seq<Time>, rest: seq<Action>)
    requires Reachable(cfg, s) && cfg.channels > 0
    requires Legal(cfg, s, [Poll(Fetch(keys, stamps))] + rest)
    requires Fetches(rest) == 0 && forall a | a in rest :: Smooth(a)
    requires Exec(cfg, s, [Poll(Fetch(keys, stamps))] + rest).loop.pc.Idle?
    ensures var after := Exec(cfg, s, [Poll(Fetch(keys, stamps))] + rest);
            && PendingKeys(after.db.table) == PendingKeys(s.db.table) - KeySet(keys)
            && forall k, left | k in keys && left in PendingKeys(after.db.table)
                                && left in s.db.table && k in s.db.table ::
                 s.db.table[k].receivedAt <= s.db.table[left].receivedAt
  {
    var all := [Poll(Fetch(keys, stamps))] + rest;
    assert all[0] == Poll(Fetch(keys, stamps)) && all[1..] == rest;
    IdleIsSmooth(cfg, s);
    FetchTakesTheBatch(cfg, s, keys, stamps);
    ReachableStep(cfg, s, all[0]);
    RunWithoutFetchLeaves(cfg, Apply(cfg, s, all[0]), rest);
    IdleIsSmooth(cfg, Exec(cfg, s, all));
  }

  // ----- the backlog can be worked off

  /** ceil(p / b) */
  function Polls(p: nat, b: nat): nat
    requires b > 0
  {
    (p + b - 1) / b
  }

  lemma DivUnique(x: int, b: int, q: int, r: int)
    requires 0 <= r < b && x == q * b + r
    ensures x / b == q
  {
    var d := x / b - q;
    assert x == (x / b) * b + x % b;
    assert d * b == r - x % b;
    assert d >= 1 ==> d * b >= b;
    assert d <= -1 ==> d * b <= -b;
  }

  lemma DivStep(x: nat, b: nat)
    requires b > 0
    ensures (x + b) / b == x / b + 1
  {
    var q, r := x / b, x % b;
    assert x + b == (q + 1) * b + r by {
      assert x == q * b + r;
      assert (q + 1) * b == q * b + b;
    }
    DivUnique(x + b, b, q + 1, r);
  }

  lemma DivSmall(x: nat, b: nat)
    requires x < b
    ensures x / b == 0
  {
    DivUnique(x, b, 0, x);
  }

  lemma PollsOneMore(p: nat, b: nat)
    requires b > 0 && p > 0
    ensures Polls(p, b) == 1 + Polls(p - Min(b, p), b)
  {
    DivStep(p - 1, b);
    if p < b {
      DivSmall(p - 1, b);
      DivSmall(b - 1, b);
    }
  }

  lemma {:induction false} FetchesConcat(a: seq<Action>, b: seq<Action>)
    ensures Fetches(a + b) == Fetches(a) + Fetches(b)
  {
    if a == [] {
      assert a + b == b;
    } else {
      assert (a + b)[1..] == a[1..] + b;
      FetchesConcat(a[1..], b);
    }
  }

  lemma {:induction false} FinishingStaysInPoll(cfg: Config, s: State, actions: seq<Action>)
    requires BeforeShutdown(s.loop) && Legal(cfg, s, actions) && forall a | a in actions :: Finishing(a)
    ensures BeforeShutdown(Exec(cfg, s, actions).loop)
    decreases |actions|
  {
    if actions != [] {
      assert actions[0] in actions;
      assert BeforeShutdown(Apply(cfg, s, actions[0]).loop);
      FinishingStaysInPoll(cfg, Apply(cfg, s, actions[0]), actions[1..]);
    }
  }

  /** One poll that succeeds throughout: with a live context it can always be had, by the dispatcher and its workers
      alone. */
  lemma OnePoll(cfg: Config, s: State, keys: seq<string>) returns (actions: seq<Action>)
    requires Reachable(cfg, s) && s.loop.pc.Idle? && !s.host.cancelled && cfg.channels > 0
    requires PendingAnswer(s.db.table, cfg.batchSize, keys)
    ensures Legal(cfg, s, actions) && QueriesLive(cfg, s, actions)
    ensures (forall a | a in actions :: Smooth(a)) && Fetches(actions) == 1
    ensures var end := Exec(cfg, s, actions);
            && Reachable(cfg, end) && end.loop.pc.Idle? && end.host == s.host
            && PendingKeys(end.db.table) == PendingKeys(s.db.table) - KeySet(keys)
  {
    var stamps := seq(|keys|, _ => 0);
    var s' := AfterFetch(cfg, s, keys, stamps);
    var rest := CanFinish(cfg, s');
    NoFetchCountsNone(rest);
    FinishingStaysInPoll(cfg, s', rest);
    WithoutFetchIsLive(cfg, s', rest);
    actions := [Poll(Fetch(keys, stamps))] + rest;
    assert actions[0] == Poll(Fetch(keys, stamps)) && actions[1..] == rest;
    PollMarksItsBatch(cfg, s, keys, stamps, rest);
  }

  lemma AfterFetch(cfg: Config, s: State, keys: seq<string>, stamps: seq<Time>) returns (s': State)
    requires Reachable(cfg, s) && s.loop.pc.Idle?
    requires PendingAnswer(s.db.table, cfg.batchSize, keys) && |stamps| == |keys|
    ensures Enabled(cfg, s, Poll(Fetch(keys, stamps))) && s' == Apply(cfg, s, Poll(Fetch(keys, stamps)))
    ensures Reachable(cfg, s') && BeforeShutdown(s'.loop) && s'.host == s.host
  {
    FetchIsPossible(cfg, s, keys, stamps);
    ReachableStep(cfg, s, Poll(Fetch(keys, stamps)));
    s' := Apply(cfg, s, Poll(Fetch(keys, stamps)));
  }

  lemma AppendPolls(cfg: Config, s: State, poll: seq<Action>, rest: seq<Action>)
    requires Legal(cfg, s, poll) && QueriesLive(cfg, s, poll)
    requires Legal(cfg, Exec(cfg, s, poll), rest) && QueriesLive(cfg, Exec(cfg, s, poll), rest)
    ensures Legal(cfg, s, poll + rest) && Exec(cfg, s, poll + rest) == Exec(cfg, Exec(cfg, s, poll), rest)
    ensures QueriesLive(cfg, s, poll + rest) && Fetches(poll + rest) == Fetches(poll) + Fetches(rest)
  {
    LegalConcat(cfg, s, poll, rest);
    LiveConcat(cfg, s, poll, rest);
    FetchesConcat(poll, rest);
  }

  /** From every idle state with a live context there is a run without failures that empties a backlog of `P` groups in
      ceil(P / batchSize) polls. By `PollsWorkOffTheBacklog` fewer polls never do. */
  lemma {:induction false} BacklogCanBeEmptied(cfg: Config, s: State) returns (actions: seq<Action>)
    requires Reachable(cfg, s) && s.loop.pc.Idle? && !s.host.cancelled && cfg.channels > 0
    ensures EmptiesBacklog(cfg, s, actions)
    ensures ValidConfig(cfg) && Fetches(actions) == Polls(|PendingKeys(s.db.table)|, cfg.batchSize)
    decreases |PendingKeys(s.db.table)|
  {
    var p := |PendingKeys(s.db.table)|;
    if p == 0 {
      actions := [];
      assert Polls(0, cfg.batchSize) == 0;
    } else {
      var keys := AnswerExists(s.db.table, cfg.batchSize);
      var poll := OnePoll(cfg, s, keys);
      CountLeft(s.db.table, keys);
      PollsOneMore(p, cfg.batchSize);
      var rest := BacklogCanBeEmptied(cfg, Exec(cfg, s, poll));
      AppendPolls(cfg, s, poll, rest);
      actions := poll + rest;
    }
  }

  /** A run without new groups and failures, and without a query on a done context, that ends idle with nothing
      pending. */
  ghost predicate EmptiesBacklog(cfg: Config, s: State, actions: seq<Action>) {
    && Legal(cfg, s, actions) && QueriesLive(cfg, s, actions) && (forall a | a in actions :: Smooth(a))
    && var end := Exec(cfg, s, actions);
       Reachable(cfg, end) && end.loop.pc.Idle? && PendingKeys(end.db.table) == {}
  }

  lemma {:induction false} NoFetchCountsNone(actions: seq<Action>)
    requires forall a | a in actions :: !IsFetch(a)
    ensures Fetches(actions) == 0
  {
    if actions != [] {
      assert actions[0] in actions;
      NoFetchCountsNone(actions[1..]);
    }
  }

  /** The exact condition: a backlog can be worked off if and only if there is none or the context is live. Once the
      dispatcher is cancelled, what is pending stays pending. */
  lemma BacklogCanBeEmptiedExactly(cfg: Config, s: State)
    requires Reachable(cfg, s) && s.loop.pc.Idle? && cfg.channels > 0
    ensures (exists actions :: EmptiesBacklog(cfg, s, actions))
            <==> PendingKeys(s.db.table) == {} || !s.host.cancelled
  {
    if PendingKeys(s.db.table) == {} {
      assert EmptiesBacklog(cfg, s, []);
    } else if !s.host.cancelled {
      var actions := BacklogCanBeEmptied(cfg, s);
    } else if actions :| EmptiesBacklog(cfg, s, actions) {
      CancelledFetchesNothing(cfg, s, actions);
      NoFetchCountsNone(actions);
      PollsWorkOffTheBacklog(cfg, s, actions);
    }
  }
}
