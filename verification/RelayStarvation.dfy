/** Head-of-line blocking: the query takes the oldest pending groups first, so groups whose sends keep failing can keep
    every younger group from being fetched at all. */
module RelayStarvation {
  import opened Alerts
  import opened Basics
  import opened StoreSpec
  import opened Relay
  import opened RelayHistory
  import opened RelayTheorems
  import opened RelayProgress
  import opened RelayPending

  /** From position `n` on, every `Send` of one of these groups that returns, fails. */
  ghost predicate SendsFailFrom(log: seq<Event>, n: nat, keys: set<string>) {
    forall i | n <= i < |log| && log[i].SendReturned? && log[i].note.body.groupKey in keys :: !log[i].ok
  }

  /** Some fetch from position `n` on returns the group. */
  ghost predicate FetchedFrom(log: seq<Event>, n: nat, k: string) {
    exists i: nat :: n <= i < |log| && Returns(log[i], k)
  }

  predicate Returns(e: Event, k: string) {
    e.Fetched? && exists j :: 0 <= j < |e.batch| && e.batch[j].body.groupKey == k
  }

  /** The rows are those of `base`, but for the status of `k`; and a round in progress was fetched after `n`. */
  ghost predicate Held(base: Table, s: State, n: nat, older: set<string>, k: string)
    requires older <= base.Keys && k in base
  {
    && (forall j | j in older :: j in s.db.table && s.db.table[j] == base[j])
    && k in s.db.table && s.db.table[k].receivedAt == base[k].receivedAt
    && (InRound(s.loop) ==> exists g: nat :: n <= g < |s.trace.log| && s.trace.log[g].Fetched?)
  }

  /** A `MarkSent` of a round fetched after `n` rests on a successful `Send` after `n`. */
  lemma MarkNeedsSuccess(cfg: Config, s: State, n: nat, m: nat, g: nat)
    requires Reachable(cfg, s) && n <= g < m < |s.trace.log| && s.trace.log[g].Fetched? && s.trace.log[m].Marked?
    ensures exists i: nat :: n <= i < m && s.trace.log[i].SendReturned? && s.trace.log[i].ok
                             && s.trace.log[i].note == s.trace.log[m].note
  {
    var log, t := s.trace.log, s.trace.log[m].note;
    var f := MarkedMeansDelivered(cfg, s, m);
    var c: nat :| c < cfg.channels && SentOn(log[..m], c, t);
    AfterFetch(cfg, s, f, SendReturned(c, t, true), m);
    var i: nat :| f < i < m && log[i] == SendReturned(c, t, true);
  }

  lemma FailingGroupIsNotMarked(cfg: Config, s: State, a: Action, base: Table, n: nat, older: set<string>, k: string)
    requires Reachable(cfg, s) && Enabled(cfg, s, a) && a.Poll? && a.poll.MarkSent?
    requires older <= base.Keys && k in base && Held(base, s, n, older, k)
    requires SendsFailFrom(Apply(cfg, s, a).trace.log, n, older)
    ensures s.loop.at < |s.loop.batch| && Current(s.loop).body.groupKey !in older
  {
    var s', m := Apply(cfg, s, a), |s.trace.log|;
    ReachableStep(cfg, s, a);
    var g: nat :| n <= g < |s.trace.log| && s.trace.log[g].Fetched?;
    assert s'.trace.log == s.trace.log + [Marked(Current(s.loop))];
    MarkNeedsSuccess(cfg, s', n, m, g);
  }

  lemma OtherStepsHoldRow(cfg: Config, s: State, a: Action, j: string)
    requires Enabled(cfg, s, a) && !SavesOneOf(a, {j}) && j in s.db.table
    ensures j in Apply(cfg, s, a).db.table
    ensures Apply(cfg, s, a).db.table[j].receivedAt == s.db.table[j].receivedAt
    ensures (a.Poll? && a.poll.MarkSent? ==> Current(s.loop).body.groupKey != j) ==>
              Apply(cfg, s, a).db.table[j] == s.db.table[j]
  {
  }

  lemma RoundStartsAtFetch(cfg: Config, s: State, a: Action)
    requires Enabled(cfg, s, a) && InRound(Apply(cfg, s, a).loop) && !InRound(s.loop)
    ensures var log, log' := s.trace.log, Apply(cfg, s, a).trace.log;
            |log'| > |log| && log'[|log|].Fetched?
  {
  }

  lemma OtherStepsHold(cfg: Config, s: State, a: Action, base: Table, n: nat, older: set<string>, k: string)
    requires Enabled(cfg, s, a) && !SavesOneOf(a, older + {k}) && n <= |s.trace.log|
    requires older <= base.Keys && k in base && Held(base, s, n, older, k)
    requires a.Poll? && a.poll.MarkSent? ==> Current(s.loop).body.groupKey !in older
    ensures Held(base, Apply(cfg, s, a), n, older, k)
  {
    var s' := Apply(cfg, s, a);
    StepLogs(cfg, s, a);
    forall j | j in older ensures j in s'.db.table && s'.db.table[j] == base[j] {
      OtherStepsHoldRow(cfg, s, a, j);
    }
    OtherStepsHoldRow(cfg, s, a, k);
    if InRound(s'.loop) {
      if InRound(s.loop) {
        var g: nat :| n <= g < |s.trace.log| && s.trace.log[g].Fetched?;
        assert s'.trace.log[g].Fetched?;
      } else {
        RoundStartsAtFetch(cfg, s, a);
        assert s'.trace.log[|s.trace.log|].Fetched?;
      }
    }
  }

  lemma StepHolds(cfg: Config, s: State, a: Action, base: Table, n: nat, older: set<string>, k: string)
    requires Reachable(cfg, s) && Enabled(cfg, s, a) && !SavesOneOf(a, older + {k}) && n <= |s.trace.log|
    requires older <= base.Keys && k in base && Held(base, s, n, older, k)
    requires SendsFailFrom(Apply(cfg, s, a).trace.log, n, older)
    ensures Held(base, Apply(cfg, s, a), n, older, k)
  {
    if a.Poll? && a.poll.MarkSent? {
      FailingGroupIsNotMarked(cfg, s, a, base, n, older, k);
    }
    OtherStepsHold(cfg, s, a, base, n, older, k);
  }

  /** As long as the older rows hold, no query returns `k`. */
  lemma HeldMeansNotReturned(cfg: Config, s: State, a: Action, base: Table, n: nat, k: string)
    requires Reachable(cfg, s) && Enabled(cfg, s, a)
    requires k in base && Held(base, s, n, Older(base, k), k) && |Older(base, k)| >= cfg.batchSize
    ensures !FetchedFrom(Apply(cfg, s, a).trace.log, |s.trace.log|, k)
  {
    StepLogs(cfg, s, a);
    if IsFetch(a) {
      var keys := a.poll.keys;
      TicketKeys(cfg, s, keys, a.poll.stamps);
      assert k !in keys by {
        if k in keys {
          AnsweredHasFewOlder(s.db.table, cfg.batchSize, keys, k);
          assert Older(base, k) <= Older(s.db.table, k);
          SubsetSize(Older(base, k), Older(s.db.table, k));
        }
      }
    }
  }

  lemma {:induction false} RunHolds(cfg: Config, s: State, actions: seq<Action>, base: Table, n: nat, k: string)
    requires Reachable(cfg, s) && Legal(cfg, s, actions) && n <= |s.trace.log|
    requires k in base && Held(base, s, n, Older(base, k), k) && |Older(base, k)| >= cfg.batchSize
    requires NoSaveOf(actions, Older(base, k) + {k})
    requires SendsFailFrom(Exec(cfg, s, actions).trace.log, n, Older(base, k))
    ensures !FetchedFrom(Exec(cfg, s, actions).trace.log, |s.trace.log|, k)
    ensures Held(base, Exec(cfg, s, actions), n, Older(base, k), k)
    decreases |actions|
  {
    if actions != [] {
      var a, s', end := actions[0], Apply(cfg, s, actions[0]), Exec(cfg, s, actions);
      assert a in actions;
      StepLogs(cfg, s, a);
      ReachableStep(cfg, s, a);
      RunExtendsLog(cfg, s', actions[1..]);
      assert SendsFailFrom(s'.trace.log, n, Older(base, k)) by {
        assert forall i | 0 <= i < |s'.trace.log| :: s'.trace.log[i] == end.trace.log[i];
      }
      StepHolds(cfg, s, a, base, n, Older(base, k), k);
      HeldMeansNotReturned(cfg, s, a, base, n, k);
      RunHolds(cfg, s', actions[1..], base, n, k);
      NotFetchedInEither(s.trace.log, s'.trace.log, end.trace.log, k);
    }
  }

  lemma NotFetchedInEither(log: seq<Event>, log': seq<Event>, log'': seq<Event>, k: string)
    requires log <= log' <= log''
    requires !FetchedFrom(log', |log|, k) && !FetchedFrom(log'', |log'|, k)
    ensures !FetchedFrom(log'', |log|, k)
  {
    forall i | |log| <= i < |log''| ensures !Returns(log''[i], k) {
      assert i < |log'| ==> log''[i] == log'[i];
    }
  }

  /** A run from `s` in which the groups older than `k` keep failing, nothing of theirs or of `k` is saved again, no
      query succeeds on a done context, and `k` is fetched all the same. */
  ghost predicate FetchedWhileOlderFail(cfg: Config, s: State, actions: seq<Action>, k: string)
    requires k in s.db.table
  {
    && Legal(cfg, s, actions) && QueriesLive(cfg, s, actions)
    && NoSaveOf(actions, Older(s.db.table, k) + {k})
    && SendsFailFrom(Exec(cfg, s, actions).trace.log, |s.trace.log|, Older(s.db.table, k))
    && FetchedFrom(Exec(cfg, s, actions).trace.log, |s.trace.log|, k)
  }

  lemma OneFetch(cfg: Config, s: State, keys: seq<string>, stamps: seq<Time>) returns (actions: seq<Action>)
    requires CanPoll(cfg, s, Fetch(keys, stamps)) && !s.host.cancelled
    ensures Legal(cfg, s, actions) && QueriesLive(cfg, s, actions) && forall a | a in actions :: !a.Outside?
    ensures Exec(cfg, s, actions).trace.log == s.trace.log + [Fetched(Tickets(s.db, s.trace.rounds, keys, stamps))]
  {
    actions := [Poll(Fetch(keys, stamps))];
    var end := Apply(cfg, s, actions[0]);
    assert Legal(cfg, end, []) && Exec(cfg, s, actions) == Exec(cfg, end, []) == end;
  }

  lemma NextQueryReturns(cfg: Config, s: State, k: string) returns (actions: seq<Action>)
    requires Reachable(cfg, s) && s.loop.pc.Idle? && !s.host.cancelled && k in PendingKeys(s.db.table)
    requires |Older(s.db.table, k)| < cfg.batchSize
    ensures FetchedWhileOlderFail(cfg, s, actions, k)
  {
    AnsweredExactly(s.db.table, cfg.batchSize, k);
    var keys :| PendingAnswer(s.db.table, cfg.batchSize, keys) && k in keys;
    var stamps := seq(|keys|, _ => 0);
    FetchIsPossible(cfg, s, keys, stamps);
    TicketKeys(cfg, s, keys, stamps);
    actions := OneFetch(cfg, s, keys, stamps);
    var i :| 0 <= i < |keys| && keys[i] == k;
    LastReturns(s.trace.log, Tickets(s.db, s.trace.rounds, keys, stamps), i, k);
  }

  lemma LastReturns(log: seq<Event>, batch: seq<Note>, i: nat, k: string)
    requires i < |batch| && batch[i].body.groupKey == k
    ensures FetchedFrom(log + [Fetched(batch)], |log|, k)
  {
    assert Returns((log + [Fetched(batch)])[|log|], k);
  }

  lemma CancelledReturnsNothing(cfg: Config, s: State, actions: seq<Action>, k: string)
    requires Reachable(cfg, s) && Legal(cfg, s, actions) && QueriesLive(cfg, s, actions) && s.host.cancelled
    ensures !FetchedFrom(Exec(cfg, s, actions).trace.log, |s.trace.log|, k)
  {
    CancelledFetchesNothing(cfg, s, actions);
    NoFetchNoQuery(cfg, s, actions);
  }

  /** While the pending groups older than `k` keep failing, `k` can still be fetched if and only if the context is
      live and they are fewer than the batch size. Otherwise no poll ever takes it, however many there are. */
  lemma FailingGroupsStarveYoungerExactly(cfg: Config, s: State, k: string)
    requires Reachable(cfg, s) && s.loop.pc.Idle? && k in PendingKeys(s.db.table)
    ensures (exists actions :: FetchedWhileOlderFail(cfg, s, actions, k))
            <==> !s.host.cancelled && |Older(s.db.table, k)| < cfg.batchSize
  {
    if !s.host.cancelled && |Older(s.db.table, k)| < cfg.batchSize {
      var actions := NextQueryReturns(cfg, s, k);
    } else if actions :| FetchedWhileOlderFail(cfg, s, actions, k) {
      if s.host.cancelled {
        CancelledReturnsNothing(cfg, s, actions, k);
      } else {
        RunHolds(cfg, s, actions, s.db.table, |s.trace.log|, k);
      }
    }
  }

  // ----- the next query

  /** A run without fetches and without new groups: what happens between two polls. */
  predicate Quiet(a: Action) {
    !IsFetch(a) && !(a.Outside? && a.outside.SaveCommits?)
  }

  lemma {:induction false} QuietRunKeepsTable(cfg: Config, s: State, actions: seq<Action>)
    requires Reachable(cfg, s) && !InRound(s.loop) && Legal(cfg, s, actions) && forall a | a in actions :: Quiet(a)
    ensures Exec(cfg, s, actions).db.table == s.db.table && !InRound(Exec(cfg, s, actions).loop)
    ensures Reachable(cfg, Exec(cfg, s, actions))
    decreases |actions|
  {
    if actions != [] {
      var s' := Apply(cfg, s, actions[0]);
      assert actions[0] in actions;
      ReachableStep(cfg, s, actions[0]);
      assert s'.db.table == s.db.table && !InRound(s'.loop);
      QuietRunKeepsTable(cfg, s', actions[1..]);
    }
  }

  /** A query that can succeed on a context that is live when it starts. */
  ghost predicate CanFetchLive(cfg: Config, s: State, keys: seq<string>, stamps: seq<Time>) {
    CanPoll(cfg, s, Fetch(keys, stamps)) && !s.host.cancelled
  }

  /** From an idle state, whatever else happens before the next query succeeds: if no group is saved in between
      and the context is live, that query returns `k` in every run if and only if fewer than `batchSize` other pending
      groups are as old or older. */
  lemma NextQueryMustReturnExactly(cfg: Config, s: State, quiet: seq<Action>, k: string)
    requires Reachable(cfg, s) && s.loop.pc.Idle? && k in PendingKeys(s.db.table)
    requires Legal(cfg, s, quiet) && (forall a | a in quiet :: Quiet(a)) && Exec(cfg, s, quiet).loop.pc.Idle?
    ensures (forall keys, stamps | CanFetchLive(cfg, Exec(cfg, s, quiet), keys, stamps) :: k in keys)
            <==> Exec(cfg, s, quiet).host.cancelled || |Rivals(s.db.table, k)| < cfg.batchSize
  {
    var s' := Exec(cfg, s, quiet);
    QuietRunKeepsTable(cfg, s, quiet);
    AlwaysAnsweredExactly(s.db.table, cfg.batchSize, k);
    if !s'.host.cancelled && |Rivals(s.db.table, k)| >= cfg.batchSize {
      var keys :| PendingAnswer(s.db.table, cfg.batchSize, keys) && k !in keys;
      var stamps := seq(|keys|, _ => 0);
      FetchIsPossible(cfg, s', keys, stamps);
      assert CanFetchLive(cfg, s', keys, stamps);
    }
  }
}
