/** What stays pending, over whole runs: how a row may change, what a failed send leaves behind, and whom it starves. */
module RelayPending {
  import opened Alerts
  import opened StoreSpec
  import opened Relay
  import opened RelayHistory
  import opened RelayTheorems
  import opened RelayVersions
  import opened RelayProgress

  /** No `Save` of any of these keys commits in the run. */
  predicate NoSaveOf(actions: seq<Action>, keys: set<string>) {
    forall a | a in actions :: !SavesOneOf(a, keys)
  }

  predicate SavesOneOf(a: Action, keys: set<string>) {
    a.Outside? && a.outside.SaveCommits? && a.outside.group.groupKey in keys
  }

  /** `MarkSent` of the key at or after position `n`. */
  ghost predicate MarkedFrom(log: seq<Event>, n: nat, k: string) {
    exists m: nat :: n <= m < |log| && Marks(log[m], k)
  }

  // ----- one row

  lemma StepLogs(cfg: Config, s: State, a: Action)
    requires Enabled(cfg, s, a)
    ensures var log, log' := s.trace.log, Apply(cfg, s, a).trace.log;
            log <= log' && |log'| <= |log| + 1
    ensures var log, log' := s.trace.log, Apply(cfg, s, a).trace.log;
            |log'| > |log| && log'[|log|].Fetched? ==>
              IsFetch(a) && log'[|log|] == Fetched(Tickets(s.db, s.trace.rounds, a.poll.keys, a.poll.stamps))
  {
  }

  lemma StepOnRow(cfg: Config, s: State, a: Action, k: string)
    requires Enabled(cfg, s, a) && k in s.db.table && !SavesOneOf(a, {k})
    ensures var s' := Apply(cfg, s, a);
            && k in s'.db.table
            && s'.db.table[k] == if MarkedFrom(s'.trace.log, |s.trace.log|, k) then s.db.table[k].(status := Sent)
                                 else s.db.table[k]
  {
    var s' := Apply(cfg, s, a);
    var n := |s.trace.log|;
    StepLogs(cfg, s, a);
    assert MarkedFrom(s'.trace.log, n, k) <==> n < |s'.trace.log| && Marks(s'.trace.log[n], k);
    if a.Poll? && a.poll.MarkSent? {
      assert s'.trace.log[n] == Marked(Current(s.loop));
    }
  }

  lemma {:induction false} RunExtendsLog(cfg: Config, s: State, actions: seq<Action>)
    requires Reachable(cfg, s) && Legal(cfg, s, actions)
    ensures s.trace.log <= Exec(cfg, s, actions).trace.log && Reachable(cfg, Exec(cfg, s, actions))
    decreases |actions|
  {
    if actions != [] {
      StepLogs(cfg, s, actions[0]);
      ReachableStep(cfg, s, actions[0]);
      RunExtendsLog(cfg, Apply(cfg, s, actions[0]), actions[1..]);
    }
  }

  lemma MarkedFromSplit(log: seq<Event>, n: nat, n': nat, k: string)
    requires n <= n' <= |log|
    ensures MarkedFrom(log, n, k) <==> MarkedFrom(log[..n'], n, k) || MarkedFrom(log, n', k)
  {
    if MarkedFrom(log, n, k) {
      var m: nat :| n <= m < |log| && Marks(log[m], k);
      assert m < n' ==> Marks(log[..n'][m], k);
    }
    if MarkedFrom(log[..n'], n, k) {
      var m: nat :| n <= m < n' && Marks(log[..n'][m], k);
      assert Marks(log[m], k);
    }
  }

  /** Over any run without a `Save` of its key a row keeps its payload and its `received_at`, and its status changes
      exactly if the key is marked in the run. */
  lemma {:induction false} RowChangesOnlyByMark(cfg: Config, s: State, actions: seq<Action>, k: string)
    requires Reachable(cfg, s) && Legal(cfg, s, actions) && NoSaveOf(actions, {k}) && k in s.db.table
    ensures var end := Exec(cfg, s, actions);
            && k in end.db.table
            && end.db.table[k] == if MarkedFrom(end.trace.log, |s.trace.log|, k) then s.db.table[k].(status := Sent)
                                  else s.db.table[k]
    decreases |actions|
  {
    if actions != [] {
      var a, s', end := actions[0], Apply(cfg, s, actions[0]), Exec(cfg, s, actions);
      assert a in actions;
      StepLogs(cfg, s, a);
      StepOnRow(cfg, s, a, k);
      ReachableStep(cfg, s, a);
      RowChangesOnlyByMark(cfg, s', actions[1..], k);
      RunExtendsLog(cfg, s', actions[1..]);
      assert end.trace.log[..|s'.trace.log|] == s'.trace.log;
      MarkedFromSplit(end.trace.log, |s.trace.log|, |s'.trace.log|, k);
    }
  }

  // ----- one poll

  lemma {:induction false} NoFetchNoQuery(cfg: Config, s: State, actions: seq<Action>)
    requires Reachable(cfg, s) && Legal(cfg, s, actions) && forall a | a in actions :: !IsFetch(a)
    ensures var log, log' := s.trace.log, Exec(cfg, s, actions).trace.log;
            log <= log' && forall i | |log| <= i < |log'| :: !log'[i].Fetched?
    decreases |actions|
  {
    if actions != [] {
      var s', end := Apply(cfg, s, actions[0]), Exec(cfg, s, actions);
      assert actions[0] in actions;
      StepLogs(cfg, s, actions[0]);
      ReachableStep(cfg, s, actions[0]);
      NoFetchNoQuery(cfg, s', actions[1..]);
      forall i | |s.trace.log| <= i < |end.trace.log| ensures !end.trace.log[i].Fetched? {
        assert i < |s'.trace.log| ==> end.trace.log[i] == s'.trace.log[i];
      }
    }
  }

  /** The run of one poll: a fetch, and then anything but another one. */
  ghost predicate IsPoll(cfg: Config, s: State, keys: seq<string>, stamps: seq<Time>, rest: seq<Action>) {
    Legal(cfg, s, [Poll(Fetch(keys, stamps))] + rest) && forall a | a in rest :: !IsFetch(a)
  }

  lemma PollLogsOneQuery(cfg: Config, s: State, keys: seq<string>, stamps: seq<Time>, rest: seq<Action>)
    requires Reachable(cfg, s) && IsPoll(cfg, s, keys, stamps, rest)
    ensures CanPoll(cfg, s, Fetch(keys, stamps))
    ensures var n, log := |s.trace.log|, Exec(cfg, s, [Poll(Fetch(keys, stamps))] + rest).trace.log;
            && n < |log| && log[n] == Fetched(Tickets(s.db, s.trace.rounds, keys, stamps))
            && forall i | n < i < |log| :: !log[i].Fetched?
    ensures Reachable(cfg, Exec(cfg, s, [Poll(Fetch(keys, stamps))] + rest))
  {
    var all := [Poll(Fetch(keys, stamps))] + rest;
    assert all[0] == Poll(Fetch(keys, stamps)) && all[1..] == rest;
    var s' := Apply(cfg, s, all[0]);
    ReachableStep(cfg, s, all[0]);
    NoFetchNoQuery(cfg, s', rest);
    RunExtendsLog(cfg, s', rest);
    assert s'.trace.log[|s.trace.log|] == Fetched(Tickets(s.db, s.trace.rounds, keys, stamps));
  }

  /** Within a poll, a mark can only be of a note that its query returned. */
  lemma PollMarksItsNotes(cfg: Config, end: State, n: nat, m: nat)
    requires Reachable(cfg, end) && n < m < |end.trace.log| && end.trace.log[n].Fetched? && end.trace.log[m].Marked?
    requires forall i | n < i < |end.trace.log| :: !end.trace.log[i].Fetched?
    ensures end.trace.log[m].note in end.trace.log[n].batch
  {
    var f := MarkedMeansDelivered(cfg, end, m);
  }

  lemma TicketKeys(cfg: Config, s: State, keys: seq<string>, stamps: seq<Time>)
    requires Reachable(cfg, s) && CanPoll(cfg, s, Fetch(keys, stamps))
    ensures var batch := Tickets(s.db, s.trace.rounds, keys, stamps);
            && |batch| == |keys|
            && forall i | 0 <= i < |keys| :: batch[i].body.groupKey == keys[i] && batch[i].body.createdAt == stamps[i]
  {
    RowsAreFiledUnderTheirKey(cfg, s);
  }

  /** From its fetch until the next one a group's row changes exactly by the `MarkSent` of its own note, and then
      only in its status. */
  lemma PolledRowChangesOnlyByItsMark(cfg: Config, s: State, keys: seq<string>, stamps: seq<Time>, rest: seq<Action>,
                                      i: nat)
    requires Reachable(cfg, s) && IsPoll(cfg, s, keys, stamps, rest) && i < |keys| && NoSaveOf(rest, {keys[i]})
    ensures CanPoll(cfg, s, Fetch(keys, stamps)) && keys[i] in PendingKeys(s.db.table)
    ensures var end := Exec(cfg, s, [Poll(Fetch(keys, stamps))] + rest);
            var t := Tickets(s.db, s.trace.rounds, keys, stamps)[i];
            && keys[i] in end.db.table
            && end.db.table[keys[i]]
               == if Marked(t) in end.trace.log then s.db.table[keys[i]].(status := Sent) else s.db.table[keys[i]]
  {
    var all := [Poll(Fetch(keys, stamps))] + rest;
    var end, n := Exec(cfg, s, all), |s.trace.log|;
    PollLogsOneQuery(cfg, s, keys, stamps, rest);
    TicketKeys(cfg, s, keys, stamps);
    RowChangesOnlyByMark(cfg, s, all, keys[i]);
    MarkOfKeyIsMarkOfNote(cfg, end, n, Tickets(s.db, s.trace.rounds, keys, stamps), i);
  }

  lemma MarkOfKeyIsMarkOfNote(cfg: Config, end: State, n: nat, batch: seq<Note>, i: nat)
    requires Reachable(cfg, end) && n < |end.trace.log| && end.trace.log[n] == Fetched(batch) && i < |batch|
    requires forall j | n < j < |end.trace.log| :: !end.trace.log[j].Fetched?
    requires forall j | 0 <= j < |batch| && j != i :: batch[j].body.groupKey != batch[i].body.groupKey
    ensures MarkedFrom(end.trace.log, n, batch[i].body.groupKey) <==> Marked(batch[i]) in end.trace.log
  {
    var log, t := end.trace.log, batch[i];
    if MarkedFrom(log, n, t.body.groupKey) {
      var m: nat :| n <= m < |log| && Marks(log[m], t.body.groupKey);
      PollMarksItsNotes(cfg, end, n, m);
      assert log[m] == Marked(t);
    }
    if Marked(t) in log {
      var m :| 0 <= m < |log| && log[m] == Marked(t);
      NothingBeforeFetch(cfg, end, n, m);
    }
  }

  /** A group whose send failed on any channel is, when its poll ends, still pending with its payload and its
      `received_at` as they were; and so it stays until the next fetch. */
  lemma FailedGroupStaysAsItWas(cfg: Config, s: State, keys: seq<string>, stamps: seq<Time>, rest: seq<Action>,
                                i: nat, c: nat)
    requires Reachable(cfg, s) && IsPoll(cfg, s, keys, stamps, rest) && i < |keys| && NoSaveOf(rest, {keys[i]})
    requires CanPoll(cfg, s, Fetch(keys, stamps))
    requires SendReturned(c, Tickets(s.db, s.trace.rounds, keys, stamps)[i], false)
               in Exec(cfg, s, [Poll(Fetch(keys, stamps))] + rest).trace.log
    ensures var end := Exec(cfg, s, [Poll(Fetch(keys, stamps))] + rest);
            && keys[i] in end.db.table && keys[i] in s.db.table
            && end.db.table[keys[i]] == s.db.table[keys[i]] && end.db.table[keys[i]].status.Pending?
  {
    PolledRowChangesOnlyByItsMark(cfg, s, keys, stamps, rest, i);
    PollLogsOneQuery(cfg, s, keys, stamps, rest);
    FailedSendIsNeverMarked(cfg, Exec(cfg, s, [Poll(Fetch(keys, stamps))] + rest), c,
                            Tickets(s.db, s.trace.rounds, keys, stamps)[i]);
  }
}
