/** Which payload was delivered when a row says sent, and what any channel can ever be given. */
module RelayVersions {
  import opened Alerts
  import opened StoreSpec
  import opened Relay
  import opened RelayInvariant
  import opened RelayHistory
  import opened RelayTheorems

  /** Some channel delivered the payload that the `Save` at position `v` stored under `k`. */
  ghost predicate PayloadDelivered(log: seq<Event>, k: string, v: nat) {
    exists j: nat :: j < |log| && DeliversVersion(log[j], k, v)
  }

  predicate DeliversVersion(e: Event, k: string, v: nat) {
    e.SendReturned? && e.ok && e.note.body.groupKey == k && e.note.version == v
  }

  ghost predicate SavedBetween(log: seq<Event>, k: string, lo: nat, hi: nat) {
    exists j: nat :: lo < j < hi <= |log| && Saves(log[j], k)
  }

  /** `m` marks key `k` for the note `t` that the fetch at `f`, the latest one, returned. */
  ghost predicate MarkWindow(log: seq<Event>, k: string, f: nat, m: nat, t: Note) {
    && f < m < |log|
    && log[f].Fetched? && t in log[f].batch
    && (forall j | f < j < m :: !log[j].Fetched?)
    && log[m] == Marked(t) && t.body.groupKey == k
  }

  lemma RowFacts(cfg: Config, s: State, k: string)
    requires Reachable(cfg, s) && k in s.db.table
    ensures k in s.db.versions && RowInv(s.trace.log, k, s.db.table[k], s.db.versions[k])
  {
    ReachableHistory(cfg, s);
  }

  /** Whatever a fetch returned was the latest save of its key, not marked since. */
  lemma FetchedIsUpToDate(cfg: Config, s: State, f: nat, t: Note)
    requires Reachable(cfg, s) && f < |s.trace.log| && s.trace.log[f].Fetched? && t in s.trace.log[f].batch
    ensures UpToDate(s.trace.log[..f], t)
  {
    JustifiedAt(cfg, s, f);
    var i :| 0 <= i < |s.trace.log[f].batch| && s.trace.log[f].batch[i] == t;
  }

  /** The fetch behind a returned `Send`. */
  lemma FetchOf(cfg: Config, s: State, j: nat) returns (f: nat)
    requires Reachable(cfg, s) && j < |s.trace.log| && s.trace.log[j].SendReturned?
    ensures f < j && s.trace.log[f].Fetched? && s.trace.log[j].note in s.trace.log[f].batch
  {
    var log := s.trace.log;
    JustifiedAt(cfg, s, j);
    f :| LastFetch(log[..j], f) && log[j].note in log[..j][f].batch;
    assert log[..j][f] == log[f];
  }

  lemma NoSaveMeansSameVersion(cfg: Config, s: State, k: string, f: nat, m: nat, t: Note)
    requires Reachable(cfg, s) && MarkWindow(s.trace.log, k, f, m, t)
    requires k in s.db.table && k in s.db.versions && s.db.versions[k] < m
    requires !SavedBetween(s.trace.log, k, f, m)
    ensures t.version == s.db.versions[k]
    ensures Carries(t.body, s.db.table[k].group)
  {
    var log, v := s.trace.log, s.db.versions[k];
    RowFacts(cfg, s, k);
    FetchedIsUpToDate(cfg, s, f, t);
    assert v < f;
    assert log[..f][v] == log[v] && log[..f][t.version] == log[t.version];
  }

  /** A save inside the window hides its payload from every channel until the row is pending again. */
  lemma SaveInWindowIsNotDelivered(cfg: Config, s: State, k: string, f: nat, m: nat, t: Note, j: nat)
    requires Reachable(cfg, s) && MarkWindow(s.trace.log, k, f, m, t)
    requires k in s.db.table && k in s.db.versions && s.db.versions[k] < m
    requires SavedBetween(s.trace.log, k, f, m) && j < |s.trace.log|
    ensures !DeliversVersion(s.trace.log[j], k, s.db.versions[k])
  {
    var log, v := s.trace.log, s.db.versions[k];
    RowFacts(cfg, s, k);
    var i :| f < i < m && Saves(log[i], k);
    assert f < v;
    assert forall g: nat | m < g <= |log| :: MarkedSince(log[..g], k, v) by {
      forall g: nat | m < g <= |log| ensures MarkedSince(log[..g], k, v) {
        assert Marks(log[..g][m], k);
      }
    }
    if DeliversVersion(log[j], k, v) {
      var g := FetchOf(cfg, s, j);
      FetchedIsUpToDate(cfg, s, g, log[j].note);
    }
  }

  /** A row in status sent has had its current payload delivered exactly when no `Save` of its key committed between the
      `GetPending` that returned it and the `MarkSent` that marked it. In that case every channel that accepted the note
      delivered that payload. */
  lemma SentPayloadIsCurrentUnlessSaved(cfg: Config, s: State, k: string, f: nat, m: nat, t: Note)
    requires Reachable(cfg, s) && MarkWindow(s.trace.log, k, f, m, t)
    requires k in s.db.table && k in s.db.versions && s.db.versions[k] < m
    ensures s.db.table[k].status.Sent?
    ensures PayloadDelivered(s.trace.log, k, s.db.versions[k]) <==> !SavedBetween(s.trace.log, k, f, m)
    ensures !SavedBetween(s.trace.log, k, f, m) ==>
              && DeliveredWhereAccepted(cfg, s.trace.log[..m], t)
              && Carries(t.body, s.db.table[k].group)
  {
    var log, v := s.trace.log, s.db.versions[k];
    RowFacts(cfg, s, k);
    assert Marks(log[m], k);
    JustifiedAt(cfg, s, m);
    if SavedBetween(log, k, f, m) {
      forall j: nat | j < |log| ensures !DeliversVersion(log[j], k, v) {
        SaveInWindowIsNotDelivered(cfg, s, k, f, m, t, j);
      }
    } else {
      NoSaveMeansSameVersion(cfg, s, k, f, m, t);
      var c: nat :| c < cfg.channels && SentOn(log[..m], c, t);
      var j :| 0 <= j < m && log[..m][j] == SendReturned(c, t, true);
      assert DeliversVersion(log[j], k, v);
    }
  }

  /** Every row in status sent has such a window: the statement above speaks about all of them. */
  lemma SentRowHasWindow(cfg: Config, s: State, k: string) returns (f: nat, m: nat, t: Note)
    requires Reachable(cfg, s) && k in s.db.table && s.db.table[k].status.Sent?
    ensures MarkWindow(s.trace.log, k, f, m, t)
    ensures k in s.db.versions && s.db.versions[k] < m
  {
    var log := s.trace.log;
    RowFacts(cfg, s, k);
    m :| s.db.versions[k] < m < |log| && Marks(log[m], k);
    t := log[m].note;
    f := MarkedMeansDelivered(cfg, s, m);
  }

  /** A pending row, on the other hand, has not been marked since its latest save: it will be fetched again. */
  lemma PendingRowIsUnmarked(cfg: Config, s: State, k: string)
    requires Reachable(cfg, s) && k in s.db.table
    ensures k in s.db.versions
    ensures s.db.table[k].status.Pending? <==> !MarkedSince(s.trace.log, k, s.db.versions[k])
  {
    RowFacts(cfg, s, k);
  }

  // ----- what the channels are told

  /** Whatever `Channel.Send` was called with says, field by field, what a payload stored before said: that payload was
      the latest of its key when the notification was fetched. */
  lemma SentBodyIsTheSavedPayload(cfg: Config, s: State, j: nat) returns (v: nat, f: nat)
    requires Reachable(cfg, s) && j < |s.trace.log| && s.trace.log[j].SendReturned?
    ensures v < f < j && s.trace.log[v].Saved? && s.trace.log[f].Fetched?
    ensures s.trace.log[j].note in s.trace.log[f].batch
    ensures Carries(s.trace.log[j].note.body, s.trace.log[v].group)
    ensures forall i | v < i < f :: !Saves(s.trace.log[i], s.trace.log[v].group.groupKey)
  {
    var log, t := s.trace.log, s.trace.log[j].note;
    f := FetchOf(cfg, s, j);
    v := t.version;
    FetchedIsUpToDate(cfg, s, f, t);
    assert forall i | 0 <= i < f :: log[..f][i] == log[i];
  }

  // ----- end-to-end validity

  lemma FetchedIsValid(cfg: Config, s: State, f: nat, t: Note)
    requires Reachable(cfg, s) && f < |s.trace.log| && s.trace.log[f].Fetched? && t in s.trace.log[f].batch
    ensures ValidNotification(t.body, cfg.maxAlerts)
  {
    FetchedIsUpToDate(cfg, s, f, t);
    assert s.trace.log[..f][t.version] == s.trace.log[t.version];
    JustifiedAt(cfg, s, t.version);
  }

  /** Every notification ever passed to `Channel.Send` is valid, and every alert in it has a name: the gate in front of
      `Save` is the only way in. */
  lemma OnlyValidNotificationsAreSent(cfg: Config, s: State, j: nat)
    requires Reachable(cfg, s) && j < |s.trace.log| && s.trace.log[j].SendReturned?
    ensures ValidNotification(s.trace.log[j].note.body, cfg.maxAlerts)
    ensures AllNamed(s.trace.log[j].note.body.alerts)
  {
    var f := FetchOf(cfg, s, j);
    FetchedIsValid(cfg, s, f, s.trace.log[j].note);
    ValidAlertsAreNamed(s.trace.log[j].note.body.alerts);
  }

  /** The same of the notification a worker is about to pass to `Send`. */
  lemma OnlyValidNotificationsAreHeld(cfg: Config, s: State, w: nat)
    requires Reachable(cfg, s) && w < |s.pipes.workers| && s.pipes.workers[w].Holding?
    ensures ValidNotification(s.pipes.workers[w].note.body, cfg.maxAlerts)
    ensures AllNamed(s.pipes.workers[w].note.body.alerts)
  {
    ReachableInv(cfg, s);
    ReachableHistory(cfg, s);
    assert InFlight(s, s.pipes.workers[w].note);
    FetchedIsValid(cfg, s, s.trace.fetchedAt, Current(s.loop));
    ValidAlertsAreNamed(Current(s.loop).body.alerts);
  }

  /** Every row stays filed under the key of its own payload, so `MarkSent` by the payload's key hits the fetched row.
      */
  lemma RowsAreFiledUnderTheirKey(cfg: Config, s: State)
    requires Reachable(cfg, s)
    ensures KeysAgree(s.db.table)
    ensures InRound(s.loop) && s.loop.at < |s.loop.batch| ==> Current(s.loop).body.groupKey in s.db.table
  {
    ReachableHistory(cfg, s);
    var log := s.trace.log;
    forall k | k in s.db.table ensures s.db.table[k].group.groupKey == k {
      RowFacts(cfg, s, k);
    }
    if InRound(s.loop) && s.loop.at < |s.loop.batch| {
      var t, f := Current(s.loop), s.trace.fetchedAt;
      FetchedIsUpToDate(cfg, s, f, t);
      assert log[..f][t.version] == log[t.version];
    }
  }
}
