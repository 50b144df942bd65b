/** What every event in the log rests on, in every run. */
module RelayHistory {
  import opened Alerts
  import opened StoreSpec
  import opened Relay
  import opened RelayInvariant

  // ----- saves, fetches and marks of one key

  predicate Saves(e: Event, k: string) {
    e.Saved? && e.group.groupKey == k
  }

  predicate Marks(e: Event, k: string) {
    e.Marked? && e.note.body.groupKey == k
  }

  /** Position `v` is the latest `Save` of key `k`. */
  ghost predicate LastSave(log: seq<Event>, k: string, v: nat) {
    v < |log| && Saves(log[v], k) && forall j | v < j < |log| :: !Saves(log[j], k)
  }

  ghost predicate MarkedSince(log: seq<Event>, k: string, v: nat) {
    exists m: nat :: v < m < |log| && Marks(log[m], k)
  }

  /** Position `f` is the latest fetch. */
  ghost predicate LastFetch(log: seq<Event>, f: nat) {
    f < |log| && log[f].Fetched? && forall j | f < j < |log| :: !log[j].Fetched?
  }

  ghost predicate InLastFetch(log: seq<Event>, t: Note) {
    exists f: nat :: LastFetch(log, f) && t in log[f].batch
  }

  /** The note carries the payload of the latest `Save` of its key, which has not been marked sent since. */
  ghost predicate UpToDate(log: seq<Event>, t: Note) {
    && LastSave(log, t.body.groupKey, t.version)
    && t.body == NewNotification(log[t.version].group, t.body.createdAt)
    && !MarkedSince(log, t.body.groupKey, t.version)
  }

  // ----- deliveries

  ghost predicate SentOn(log: seq<Event>, c: nat, t: Note) {
    && Accepted(c, t) in log
    && SendReturned(c, t, true) in log
    && SendReturned(c, t, false) !in log
  }

  ghost predicate SkippedOn(log: seq<Event>, c: nat, t: Note) {
    && Refused(c, t) in log
    && Accepted(c, t) !in log
    && SendReturned(c, t, true) !in log && SendReturned(c, t, false) !in log
  }

  /** At least one channel took the note, and each channel that took it delivered it; the others refused it. */
  ghost predicate DeliveredWhereAccepted(cfg: Config, log: seq<Event>, t: Note) {
    && (exists c: nat :: c < cfg.channels && SentOn(log, c, t))
    && (forall c: nat | c < cfg.channels :: SentOn(log, c, t) || SkippedOn(log, c, t))
  }

  // ----- justification

  /** What must already have happened for `e` to be the next event. */
  ghost predicate Justified(cfg: Config, before: seq<Event>, e: Event) {
    match e
    case Saved(g) => StoreClosed !in before && ValidGroup(g, cfg.maxAlerts)
    case Fetched(batch) =>
      && StoreClosed !in before
      && (forall i | 0 <= i < |batch| :: UpToDate(before, batch[i]))
      && (forall x | x in before && IsTokenEvent(x) :: Token(x) !in batch)
    case FetchFailed => StoreClosed !in before
    case ContextDone => true
    case TimedOut(c, t) => c < cfg.channels && InLastFetch(before, t)
    case Accepted(c, t) =>
      && c < cfg.channels && InLastFetch(before, t)
      && Accepted(c, t) !in before && Refused(c, t) !in before
    case Refused(c, t) =>
      && c < cfg.channels && InLastFetch(before, t)
      && Accepted(c, t) !in before && Refused(c, t) !in before
      && (ContextDone in before || TimedOut(c, t) in before)
    case SendReturned(c, t, _) =>
      && c < cfg.channels && InLastFetch(before, t)
      && Accepted(c, t) in before
      && SendReturned(c, t, true) !in before && SendReturned(c, t, false) !in before
    case Collected(r) =>
      && r.channel < cfg.channels && InLastFetch(before, r.note)
      && SendReturned(r.channel, r.note, r.ok) in before
      && Collected(SendResult(r.note, r.channel, true)) !in before
      && Collected(SendResult(r.note, r.channel, false)) !in before
    case Marked(t) => StoreClosed !in before && InLastFetch(before, t) && DeliveredWhereAccepted(cfg, before, t)
    case MarkFailed(t) => StoreClosed !in before && InLastFetch(before, t) && DeliveredWhereAccepted(cfg, before, t)
    case StoreClosed => StoreClosed !in before
  }

  ghost predicate AllJustified(cfg: Config, log: seq<Event>) {
    forall m | 0 <= m < |log| :: Justified(cfg, log[..m], log[m])
  }

  // ----- how the state and the log agree

  ghost predicate RowInv(log: seq<Event>, k: string, e: Entry, v: nat) {
    && LastSave(log, k, v)
    && log[v].group == e.group
    && (e.status.Sent? <==> MarkedSince(log, k, v))
  }

  ghost predicate RowsInv(db: Database, log: seq<Event>) {
    && db.table.Keys == db.versions.Keys
    && (forall k | k in db.table :: RowInv(log, k, db.table[k], db.versions[k]))
    && (forall j | 0 <= j < |log| && log[j].Saved? :: log[j].group.groupKey in db.table)
  }

  ghost predicate ContextInv(s: State) {
    var l, log := s.loop, s.trace.log;
    && (s.host.cancelled ==> ContextDone in log)
    && (l.pc.Enqueuing? && l.at < |l.batch| && l.contextDone ==>
          ContextDone in log || TimedOut(l.channel, Current(l)) in log)
    && (s.host.main.Finished? <==> StoreClosed in log)
    && (InRound(l) ==> LastFetch(log, s.trace.fetchedAt) && log[s.trace.fetchedAt] == Fetched(l.batch))
  }

  ghost predicate HistoryInv(cfg: Config, s: State) {
    && AllJustified(cfg, s.trace.log)
    && RowsInv(s.db, s.trace.log)
    && ContextInv(s)
  }

  // ----- appending one event

  lemma AppendKeepsJustified(cfg: Config, log: seq<Event>, e: Event)
    requires AllJustified(cfg, log) && Justified(cfg, log, e)
    ensures AllJustified(cfg, log + [e])
  {
    forall m | 0 <= m < |log + [e]| ensures Justified(cfg, (log + [e])[..m], (log + [e])[m]) {
      assert (log + [e])[..m] == log[..m];
      assert log[..|log|] == log;
    }
  }

  lemma AppendKeepsRow(log: seq<Event>, e: Event, k: string, entry: Entry, v: nat)
    requires RowInv(log, k, entry, v) && !Saves(e, k)
    ensures RowInv(log + [e], k, if Marks(e, k) then entry.(status := Sent) else entry, v)
  {
    if Marks(e, k) {
      assert Marks((log + [e])[|log|], k);
    } else if entry.status.Sent? {
      var m :| v < m < |log| && Marks(log[m], k);
      assert Marks((log + [e])[m], k);
    } else {
      assert forall m | v < m < |log| :: (log + [e])[m] == log[m];
    }
  }

  lemma SaveStartsRow(log: seq<Event>, g: AlertGroup, now: Time)
    ensures RowInv(log + [Saved(g)], g.groupKey, Entry(g, Pending, now), |log|)
  {
  }

  lemma AppendKeepsRows(db: Database, log: seq<Event>, e: Event)
    requires RowsInv(db, log) && !e.Saved? && !e.Marked?
    ensures RowsInv(db, log + [e])
  {
    forall k | k in db.table ensures RowInv(log + [e], k, db.table[k], db.versions[k]) {
      AppendKeepsRow(log, e, k, db.table[k], db.versions[k]);
    }
  }

  lemma SaveKeepsRows(db: Database, log: seq<Event>, g: AlertGroup, now: Time)
    requires RowsInv(db, log)
    ensures RowsInv(Database(Upsert(db.table, g, now), db.versions[g.groupKey := |log|]), log + [Saved(g)])
  {
    var db' := Database(Upsert(db.table, g, now), db.versions[g.groupKey := |log|]);
    forall k | k in db'.table ensures RowInv(log + [Saved(g)], k, db'.table[k], db'.versions[k]) {
      if k == g.groupKey {
        SaveStartsRow(log, g, now);
      } else {
        AppendKeepsRow(log, Saved(g), k, db.table[k], db.versions[k]);
      }
    }
  }

  lemma MarkKeepsRows(db: Database, log: seq<Event>, t: Note)
    requires RowsInv(db, log) && t.body.groupKey in db.table
    ensures RowsInv(db.(table := Mark(db.table, t.body.groupKey)), log + [Marked(t)])
  {
    var db' := db.(table := Mark(db.table, t.body.groupKey));
    forall k | k in db'.table ensures RowInv(log + [Marked(t)], k, db'.table[k], db'.versions[k]) {
      AppendKeepsRow(log, Marked(t), k, db.table[k], db.versions[k]);
    }
  }

  lemma CurrentInLastFetch(s: State)
    requires ContextInv(s) && InRound(s.loop) && s.loop.at < |s.loop.batch|
    ensures InLastFetch(s.trace.log, Current(s.loop))
  {
    assert Current(s.loop) in s.trace.log[s.trace.fetchedAt].batch;
  }

  /** The state's half of one step that logs `e` without touching the rows. */
  lemma EventKeepsLog(cfg: Config, db: Database, log: seq<Event>, e: Event)
    requires AllJustified(cfg, log) && RowsInv(db, log) && Justified(cfg, log, e) && !e.Saved? && !e.Marked?
    ensures AllJustified(cfg, log + [e]) && RowsInv(db, log + [e])
  {
    AppendKeepsJustified(cfg, log, e);
    AppendKeepsRows(db, log, e);
  }

  ghost predicate LogInv(cfg: Config, s: State) {
    AllJustified(cfg, s.trace.log) && RowsInv(s.db, s.trace.log)
  }

  // ----- the outside world

  lemma OutsideKeepsLog(cfg: Config, s: State, a: OutsideStep)
    requires HistoryInv(cfg, s) && FlagsInv(cfg, s) && CanOutside(cfg, s, a)
    ensures LogInv(cfg, DoOutside(cfg, s, a))
  {
    var log := s.trace.log;
    match a
    case SaveCommits(g, now) =>
      AppendKeepsJustified(cfg, log, Saved(g));
      SaveKeepsRows(s.db, log, g, now);
    case SignalArrives => EventKeepsLog(cfg, s.db, log, ContextDone);
    case EnqueueTimerFires =>
      CurrentInLastFetch(s);
      EventKeepsLog(cfg, s.db, log, TimedOut(s.loop.channel, Current(s.loop)));
    case CancelDispatcher => EventKeepsLog(cfg, s.db, log, ContextDone);
    case CloseStore => EventKeepsLog(cfg, s.db, log, StoreClosed);
    case _ =>
  }

  lemma OutsideKeepsContext(cfg: Config, s: State, a: OutsideStep)
    requires ContextInv(s) && CanOutside(cfg, s, a)
    ensures ContextInv(DoOutside(cfg, s, a))
  {
  }

  // ----- workers

  lemma SendIsJustified(cfg: Config, s: State, w: nat, ok: bool)
    requires Inv(cfg, s) && ContextInv(s) && CanWork(cfg, s.pipes, w, SendReturns(ok))
    ensures Justified(cfg, s.trace.log, SendReturned(w, s.pipes.workers[w].note, ok))
  {
    var t := s.pipes.workers[w].note;
    assert InFlight(s, t);
    CurrentInLastFetch(s);
    assert AcceptedBalance(s, w, t) && Accepts(s, w, t) <= 1;
    assert InHand(s, w, t) == 1;
    assert Accepts(s, w, t) == 1 && Sends(s, w, t, true) == 0 && Sends(s, w, t, false) == 0;
  }

  lemma WorkKeepsLog(cfg: Config, s: State, w: nat, a: WorkStep)
    requires LogInv(cfg, s) && CanWork(cfg, s.pipes, w, a)
    requires a.SendReturns? ==> Justified(cfg, s.trace.log, SendReturned(w, s.pipes.workers[w].note, a.ok))
    ensures LogInv(cfg, DoWork(cfg, s, w, a))
  {
    if a.SendReturns? {
      EventKeepsLog(cfg, s.db, s.trace.log, SendReturned(w, s.pipes.workers[w].note, a.ok));
    }
  }

  lemma WorkKeepsContext(cfg: Config, s: State, w: nat, a: WorkStep)
    requires ContextInv(s) && CanWork(cfg, s.pipes, w, a)
    ensures ContextInv(DoWork(cfg, s, w, a))
  {
  }

  // ----- one poll

  lemma FetchIsJustified(cfg: Config, s: State, keys: seq<string>, stamps: seq<Time>)
    requires HistoryInv(cfg, s) && Freshness(s) && CanPoll(cfg, s, Fetch(keys, stamps))
    ensures Justified(cfg, s.trace.log, Fetched(Tickets(s.db, s.trace.rounds, keys, stamps)))
  {
    var batch, log := Tickets(s.db, s.trace.rounds, keys, stamps), s.trace.log;
    forall i | 0 <= i < |batch| ensures UpToDate(log, batch[i]) {
      var k := keys[i];
      assert k in PendingKeys(s.db.table);
      assert RowInv(log, k, s.db.table[k], s.db.versions[k]);
    }
  }

  /** The channel being offered to has no record yet. */
  lemma EnqueueIsJustified(cfg: Config, s: State)
    requires ContextInv(s) && FlagsInv(cfg, s) && RoundInv(cfg, s.loop, s.trace.log) && s.loop.pc.Enqueuing?
    ensures Justified(cfg, s.trace.log, Accepted(s.loop.channel, Current(s.loop)))
    ensures s.loop.contextDone ==> Justified(cfg, s.trace.log, Refused(s.loop.channel, Current(s.loop)))
  {
    var c, t, log := s.loop.channel, Current(s.loop), s.trace.log;
    CurrentInLastFetch(s);
    assert c !in AcceptedBy(cfg.channels, log, t) && c !in RefusedBy(cfg.channels, log, t);
  }

  lemma CollectIsJustified(cfg: Config, s: State)
    requires Inv(cfg, s) && ContextInv(s) && CanPoll(cfg, s, Collect)
    ensures Justified(cfg, s.trace.log, Collected(s.pipes.results[0]))
  {
    var r, t := s.pipes.results[0], Current(s.loop);
    ResultIsNew(cfg, s);
    CurrentInLastFetch(s);
    assert r == SendResult(t, r.channel, r.ok) && r in multiset(s.pipes.results);
    assert SentBalance(s, r.channel, t, r.ok) && InResults(s, r.channel, t, r.ok) > 0;
    assert Sends(s, r.channel, t, r.ok) > 0;
    assert r.channel !in CollectedFrom(cfg.channels, s.trace.log, t);
  }

  lemma ChannelWasServed(cfg: Config, s: State, c: nat)
    requires Conservation(cfg, s) && AcceptedOnce(cfg, s.trace.log) && RoundInv(cfg, s.loop, s.trace.log)
    requires s.loop.pc.Marking? && s.loop.at < |s.loop.batch| && c < cfg.channels
    ensures SentOn(s.trace.log, c, Current(s.loop)) || SkippedOn(s.trace.log, c, Current(s.loop))
    ensures c in AcceptedBy(cfg.channels, s.trace.log, Current(s.loop)) ==> SentOn(s.trace.log, c, Current(s.loop))
  {
    var t, log := Current(s.loop), s.trace.log;
    assert AcceptedBalance(s, c, t) && SentBalance(s, c, t, true) && SentBalance(s, c, t, false);
    assert Accepts(s, c, t) <= 1;
    if c in AcceptedBy(cfg.channels, log, t) {
      assert c in CollectedFrom(cfg.channels, log, t) && c !in FailedOn(cfg.channels, log, t);
      assert Collects(s, c, t, true) > 0;
      assert Sends(s, c, t, true) == 1 && Sends(s, c, t, false) == 0;
    } else {
      assert c in RefusedBy(cfg.channels, log, t);
      assert Accepts(s, c, t) == 0;
      assert Sends(s, c, t, true) == 0 && Sends(s, c, t, false) == 0;
    }
  }

  lemma MarkIsJustified(cfg: Config, s: State)
    requires Inv(cfg, s) && ContextInv(s) && s.loop.pc.Marking?
    ensures InLastFetch(s.trace.log, Current(s.loop)) && StoreClosed !in s.trace.log
    ensures DeliveredWhereAccepted(cfg, s.trace.log, Current(s.loop))
  {
    CurrentInLastFetch(s);
    forall c: nat | c < cfg.channels
      ensures SentOn(s.trace.log, c, Current(s.loop)) || SkippedOn(s.trace.log, c, Current(s.loop))
    {
      ChannelWasServed(cfg, s, c);
    }
    var c :| c in AcceptedBy(cfg.channels, s.trace.log, Current(s.loop));
    ChannelWasServed(cfg, s, c);
  }

  /** While the dispatcher polls, no queue is closed: the closed cases of `Enqueue` never happen to it. */
  lemma PollingFindsQueuesOpen(cfg: Config, s: State)
    requires ControlInv(cfg, s) && BeforeShutdown(s.loop)
    ensures forall q: nat | q < cfg.channels :: !s.pipes.queues[q].closed && !s.pipes.queues[q].done
  {
    forall q: nat | q < cfg.channels ensures !s.pipes.queues[q].closed && !s.pipes.queues[q].done {
      assert QueueInv(cfg, s, q);
    }
  }

  predicate PollIsLogged(a: PollStep) {
    a.Fetch? || a.FetchFails? || a.Offer? || a.EnqueueExpires? || a.Collect? || a.MarkSent? || a.MarkSentFails?
  }

  /** The event that a step of `poll` logs in a state with open queues. */
  function PollEvent(cfg: Config, s: State, a: PollStep): Event
    requires PollIsLogged(a)
    requires ControlInv(cfg, s) && CanPoll(cfg, s, a)
  {
    match a
    case Fetch(keys, stamps) => Fetched(Tickets(s.db, s.trace.rounds, keys, stamps))
    case FetchFails => FetchFailed
    case Offer => Accepted(s.loop.channel, Current(s.loop))
    case EnqueueExpires => Refused(s.loop.channel, Current(s.loop))
    case Collect => Collected(s.pipes.results[0])
    case MarkSent => Marked(Current(s.loop))
    case MarkSentFails => MarkFailed(Current(s.loop))
  }

  lemma PollLogs(cfg: Config, s: State, a: PollStep)
    requires ControlInv(cfg, s) && CanPoll(cfg, s, a)
    ensures !a.EnqueueSeesDone?
    ensures PollIsLogged(a) ==> DoPoll(cfg, s, a).trace.log == s.trace.log + [PollEvent(cfg, s, a)]
    ensures !PollIsLogged(a) ==> DoPoll(cfg, s, a).trace.log == s.trace.log
    ensures DoPoll(cfg, s, a).db
         == if a.MarkSent? then s.db.(table := Mark(s.db.table, Current(s.loop).body.groupKey)) else s.db
  {
    PollingFindsQueuesOpen(cfg, s);
  }

  lemma PollIsJustified(cfg: Config, s: State, a: PollStep)
    requires Inv(cfg, s) && HistoryInv(cfg, s) && CanPoll(cfg, s, a) && PollIsLogged(a)
    ensures Justified(cfg, s.trace.log, PollEvent(cfg, s, a))
  {
    match a
    case Fetch(keys, stamps) => FetchIsJustified(cfg, s, keys, stamps);
    case FetchFails => assert !s.host.main.Finished?;
    case Offer => EnqueueIsJustified(cfg, s);
    case EnqueueExpires => EnqueueIsJustified(cfg, s);
    case Collect => CollectIsJustified(cfg, s);
    case MarkSent => MarkIsJustified(cfg, s);
    case MarkSentFails => MarkIsJustified(cfg, s);
  }

  lemma PollKeepsLog(cfg: Config, s: State, a: PollStep)
    requires LogInv(cfg, s) && ControlInv(cfg, s) && CanPoll(cfg, s, a)
    requires PollIsLogged(a) ==> Justified(cfg, s.trace.log, PollEvent(cfg, s, a))
    ensures LogInv(cfg, DoPoll(cfg, s, a))
  {
    PollLogs(cfg, s, a);
    if PollIsLogged(a) {
      var log, e := s.trace.log, PollEvent(cfg, s, a);
      AppendKeepsJustified(cfg, log, e);
      if a.MarkSent? {
        MarkKeepsRows(s.db, log, Current(s.loop));
      } else {
        AppendKeepsRows(s.db, log, e);
      }
    }
  }

  lemma PollKeepsContext(cfg: Config, s: State, a: PollStep)
    requires ContextInv(s) && ControlInv(cfg, s) && CanPoll(cfg, s, a)
    ensures ContextInv(DoPoll(cfg, s, a))
  {
    PollLogs(cfg, s, a);
  }

  // ----- all steps, all runs

  lemma OutsideKeepsHistory(cfg: Config, s: State, a: OutsideStep)
    requires Inv(cfg, s) && HistoryInv(cfg, s) && CanOutside(cfg, s, a)
    ensures HistoryInv(cfg, DoOutside(cfg, s, a))
  {
    OutsideKeepsLog(cfg, s, a);
    OutsideKeepsContext(cfg, s, a);
  }

  lemma PollKeepsHistory(cfg: Config, s: State, a: PollStep)
    requires Inv(cfg, s) && HistoryInv(cfg, s) && CanPoll(cfg, s, a)
    ensures HistoryInv(cfg, DoPoll(cfg, s, a))
  {
    if PollIsLogged(a) {
      PollIsJustified(cfg, s, a);
    }
    PollKeepsLog(cfg, s, a);
    PollKeepsContext(cfg, s, a);
  }

  lemma ShutdownKeepsHistory(cfg: Config, s: State, a: ShutdownStep)
    requires HistoryInv(cfg, s) && CanShutdown(s, a)
    ensures HistoryInv(cfg, DoShutdown(s, a))
  {
  }

  lemma WorkKeepsHistory(cfg: Config, s: State, w: nat, a: WorkStep)
    requires Inv(cfg, s) && HistoryInv(cfg, s) && CanWork(cfg, s.pipes, w, a)
    ensures HistoryInv(cfg, DoWork(cfg, s, w, a))
  {
    if a.SendReturns? {
      SendIsJustified(cfg, s, w, a.ok);
    }
    WorkKeepsLog(cfg, s, w, a);
    WorkKeepsContext(cfg, s, w, a);
  }

  lemma StepKeepsHistory(cfg: Config, s: State, a: Action)
    requires Inv(cfg, s) && HistoryInv(cfg, s) && Enabled(cfg, s, a)
    ensures HistoryInv(cfg, Apply(cfg, s, a))
  {
    match a
    case Outside(o) => OutsideKeepsHistory(cfg, s, o);
    case Poll(p) => PollKeepsHistory(cfg, s, p);
    case Shutdown(d) => ShutdownKeepsHistory(cfg, s, d);
    case Work(w, k) => WorkKeepsHistory(cfg, s, w, k);
  }

  lemma {:induction false} RunKeepsHistory(cfg: Config, s: State, actions: seq<Action>)
    requires Inv(cfg, s) && HistoryInv(cfg, s) && Legal(cfg, s, actions)
    ensures HistoryInv(cfg, Exec(cfg, s, actions))
    decreases |actions|
  {
    if actions != [] {
      StepKeepsInv(cfg, s, actions[0]);
      StepKeepsHistory(cfg, s, actions[0]);
      RunKeepsHistory(cfg, Apply(cfg, s, actions[0]), actions[1..]);
    }
  }

  lemma ReachableHistory(cfg: Config, s: State)
    requires Reachable(cfg, s)
    ensures HistoryInv(cfg, s)
  {
    var actions :| Legal(cfg, Init(cfg), actions) && s == Exec(cfg, Init(cfg), actions);
    InitInv(cfg);
    RunKeepsHistory(cfg, Init(cfg), actions);
  }
}
