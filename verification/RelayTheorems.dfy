/** What holds of every run of the relay. */
module RelayTheorems {
  import opened StoreSpec
  import opened Relay
  import opened RelayInvariant
  import opened RelayHistory

  // ----- one group at a time

  /** Between two groups, and outside `poll`, no notification is anywhere in the pipes. */
  lemma QuiescentBetweenGroups(cfg: Config, s: State)
    requires Reachable(cfg, s)
    requires !InRound(s.loop) || (s.loop.pc.FanOut? && s.loop.channel == 0)
    ensures Quiescent(cfg, s)
  {
    ReachableInv(cfg, s);
    if InRound(s.loop) {
      var n, log, t := cfg.channels, s.trace.log, Current(s.loop);
      assert AcceptedBy(n, log, t) == {} by {
        assert forall c | c in AcceptedBy(n, log, t) :: c < Decided(cfg, s.loop);
      }
      AllHeardMeansQuiescent(cfg, s);
    } else {
      OutsideRoundMeansQuiescent(cfg, s);
    }
  }

  /** The results channel never carries another group's result, nor two results of one worker: the branch that logs a
      group key mismatch is dead. */
  lemma ResultsBelongToCurrentGroup(cfg: Config, s: State, i: nat)
    requires Reachable(cfg, s) && i < |s.pipes.results|
    ensures InRound(s.loop) && s.loop.at < |s.loop.batch|
    ensures s.pipes.results[i].note == Current(s.loop)
    ensures s.pipes.results[i].GroupKey() == Current(s.loop).body.groupKey
    ensures s.pipes.results[i].channel < cfg.channels
    ensures forall j | 0 <= j < |s.pipes.results| && j != i :: s.pipes.results[j].channel != s.pipes.results[i].channel
  {
    ReachableInv(cfg, s);
    var results := s.pipes.results;
    assert InFlight(s, results[i].note);
    forall j | 0 <= j < |results| && j != i ensures results[j].channel != results[i].channel {
      assert InFlight(s, results[j].note);
      if results[j].channel == results[i].channel {
        TwoResultsClash(cfg, s, i, j);
      }
    }
  }

  lemma OccursTwice<T>(s: seq<T>, i: nat, j: nat)
    requires i < j < |s|
    ensures s[i] == s[j] ==> multiset(s)[s[i]] >= 2
    ensures s[i] != s[j] ==> multiset(s)[s[i]] >= 1 && multiset(s)[s[j]] >= 1
  {
    assert s == s[..i] + [s[i]] + s[i + 1..j] + [s[j]] + s[j + 1..];
  }

  lemma TwoResultsClash(cfg: Config, s: State, i: nat, j: nat)
    requires Inv(cfg, s) && i != j && i < |s.pipes.results| && j < |s.pipes.results|
    ensures s.pipes.results[i].channel != s.pipes.results[j].channel
  {
    var results, t := s.pipes.results, Current(s.loop);
    assert InFlight(s, results[i].note) && InFlight(s, results[j].note);
    var c := results[i].channel;
    assert AcceptedBalance(s, c, t) && SentBalance(s, c, t, true) && SentBalance(s, c, t, false);
    assert Accepts(s, c, t) <= 1;
    OccursTwice(results, if i < j then i else j, if i < j then j else i);
    assert InResults(s, c, t, true) + InResults(s, c, t, false) <= 1;
    assert results[i] == SendResult(t, c, results[i].ok);
  }

  // ----- tokens

  /** Every accepted enqueue is, at any moment, in exactly one of: its queue, its worker's hand, done with `Send`; every
      returned `Send` is in exactly one of: its worker's report, the results channel, collected. Once its round is over,
      it has caused exactly one `Send` on its own channel and exactly one collected result with the same outcome. */
  lemma TokensAreConserved(cfg: Config, s: State, c: nat, t: Note)
    requires Reachable(cfg, s) && c < cfg.channels
    ensures |s.pipes.queues| == |s.pipes.workers| == cfg.channels
    ensures Accepts(s, c, t) <= 1
    ensures Accepts(s, c, t) == InQueue(s, c, t) + InHand(s, c, t) + Sends(s, c, t, true) + Sends(s, c, t, false)
    ensures forall ok :: Sends(s, c, t, ok) == InReport(s, c, t, ok) + InResults(s, c, t, ok) + Collects(s, c, t, ok)
    ensures !InFlight(s, t) ==>
              && Accepts(s, c, t) == Sends(s, c, t, true) + Sends(s, c, t, false)
              && forall ok :: Sends(s, c, t, ok) == Collects(s, c, t, ok)
  {
    ReachableInv(cfg, s);
    assert AcceptedBalance(s, c, t) && SentBalance(s, c, t, true) && SentBalance(s, c, t, false);
    assert Accepts(s, c, t) <= 1;
    if !InFlight(s, t) {
      var buffer := s.pipes.queues[c].buffer;
      assert t !in buffer;
      assert t !in multiset(buffer);
      forall ok ensures InResults(s, c, t, ok) == 0 {
        assert SendResult(t, c, ok) !in s.pipes.results;
      }
    }
  }

  // ----- sent implies delivered

  ghost predicate Between(log: seq<Event>, lo: nat, e: Event, hi: nat) {
    exists j: nat :: lo < j < hi <= |log| && log[j] == e
  }

  lemma PrefixHas(log: seq<Event>, j: nat, m: nat)
    requires j < |log| && m <= |log|
    ensures j < m ==> log[j] in log[..m]
  {
    assert j < m ==> log[..m][j] == log[j];
  }

  lemma JustifiedAt(cfg: Config, s: State, m: nat)
    requires Reachable(cfg, s) && m < |s.trace.log|
    ensures Justified(cfg, s.trace.log[..m], s.trace.log[m])
  {
    ReachableHistory(cfg, s);
  }

  /** No event about a note precedes the fetch that made it. */
  lemma NothingBeforeFetch(cfg: Config, s: State, f: nat, j: nat)
    requires Reachable(cfg, s) && f < |s.trace.log| && j < |s.trace.log|
    requires s.trace.log[f].Fetched? && IsTokenEvent(s.trace.log[j]) && Token(s.trace.log[j]) in s.trace.log[f].batch
    ensures f < j
  {
    JustifiedAt(cfg, s, f);
    PrefixHas(s.trace.log, j, f);
  }

  /** Every `MarkSent` rests on a successful `Send` of the same note on every channel that accepted it, of which there
      is at least one, all since the fetch that returned the group; the remaining channels had refused it. */
  lemma MarkedMeansDelivered(cfg: Config, s: State, m: nat) returns (f: nat)
    requires Reachable(cfg, s) && m < |s.trace.log| && s.trace.log[m].Marked?
    ensures var log, t := s.trace.log, s.trace.log[m].note;
            && f < m && log[f].Fetched? && t in log[f].batch
            && (forall j | f < j < m :: !log[j].Fetched?)
            && (exists c: nat :: c < cfg.channels && SentOn(log[..m], c, t))
            && (forall c: nat | c < cfg.channels ::
                  || (Between(log, f, Accepted(c, t), m) && Between(log, f, SendReturned(c, t, true), m)
                      && SendReturned(c, t, false) !in log[..m])
                  || (Between(log, f, Refused(c, t), m) && SkippedOn(log[..m], c, t)))
  {
    var log, t := s.trace.log, s.trace.log[m].note;
    JustifiedAt(cfg, s, m);
    assert InLastFetch(log[..m], t);
    f :| LastFetch(log[..m], f) && t in log[..m][f].batch;
    forall j | f < j < m ensures !log[j].Fetched? { assert log[..m][j] == log[j]; }
    forall c: nat | c < cfg.channels
      ensures || (Between(log, f, Accepted(c, t), m) && Between(log, f, SendReturned(c, t, true), m)
                  && SendReturned(c, t, false) !in log[..m])
              || (Between(log, f, Refused(c, t), m) && SkippedOn(log[..m], c, t))
    {
      if SentOn(log[..m], c, t) {
        AfterFetch(cfg, s, f, Accepted(c, t), m);
        AfterFetch(cfg, s, f, SendReturned(c, t, true), m);
      } else {
        AfterFetch(cfg, s, f, Refused(c, t), m);
      }
    }
  }

  lemma AfterFetch(cfg: Config, s: State, f: nat, e: Event, m: nat)
    requires Reachable(cfg, s) && f < m <= |s.trace.log| && s.trace.log[f].Fetched?
    requires IsTokenEvent(e) && Token(e) in s.trace.log[f].batch && e in s.trace.log[..m]
    ensures Between(s.trace.log, f, e, m)
  {
    var j :| 0 <= j < m && s.trace.log[..m][j] == e;
    NothingBeforeFetch(cfg, s, f, j);
  }

  /** The comment on `fanOutAndCollect` promises that all channels succeeded. That is so exactly when no enqueue was
      refused, and a refusal means that the context of that enqueue was done: the dispatcher's was cancelled or the
      enqueue's own timer had fired. */
  lemma AllChannelsUnlessRefused(cfg: Config, s: State, m: nat)
    requires Reachable(cfg, s) && m < |s.trace.log| && s.trace.log[m].Marked?
    ensures var before, t := s.trace.log[..m], s.trace.log[m].note;
            && ((forall c: nat | c < cfg.channels :: SentOn(before, c, t))
                <==> (forall c: nat | c < cfg.channels :: Refused(c, t) !in before))
            && (forall c: nat | c < cfg.channels && Refused(c, t) in before ::
                  ContextDone in before || TimedOut(c, t) in before)
  {
    var before, t := s.trace.log[..m], s.trace.log[m].note;
    JustifiedAt(cfg, s, m);
    forall c: nat | c < cfg.channels
      ensures SentOn(before, c, t) <==> Refused(c, t) !in before
      ensures Refused(c, t) in before ==> ContextDone in before || TimedOut(c, t) in before
    {
      if Accepted(c, t) in before && Refused(c, t) in before {
        AcceptedOrRefused(cfg, s, c, t, m);
      }
      if Refused(c, t) in before {
        RefusalHasACause(cfg, s, c, t, m);
      }
    }
  }

  lemma AcceptedOrRefused(cfg: Config, s: State, c: nat, t: Note, m: nat)
    requires Reachable(cfg, s) && m <= |s.trace.log|
    ensures !(Accepted(c, t) in s.trace.log[..m] && Refused(c, t) in s.trace.log[..m])
  {
    var log := s.trace.log;
    if Accepted(c, t) in log[..m] && Refused(c, t) in log[..m] {
      var a :| 0 <= a < m && log[..m][a] == Accepted(c, t);
      var r :| 0 <= r < m && log[..m][r] == Refused(c, t);
      PrefixHas(log, a, r);
      PrefixHas(log, r, a);
      JustifiedAt(cfg, s, if a < r then r else a);
    }
  }

  lemma RefusalHasACause(cfg: Config, s: State, c: nat, t: Note, m: nat)
    requires Reachable(cfg, s) && m <= |s.trace.log| && Refused(c, t) in s.trace.log[..m]
    ensures ContextDone in s.trace.log[..m] || TimedOut(c, t) in s.trace.log[..m]
  {
    var log := s.trace.log;
    var r :| 0 <= r < m && log[..m][r] == Refused(c, t);
    JustifiedAt(cfg, s, r);
    var cause :| cause in log[..r] && (cause == ContextDone || cause == TimedOut(c, t));
    var j :| 0 <= j < r && log[..r][j] == cause;
    assert log[..m][j] == cause;
  }

  /** So when no context is done before the fan-out of a marked note is over, every configured channel delivered it. */
  lemma LiveContextsMeanAllChannels(cfg: Config, s: State, m: nat, end: nat)
    requires Reachable(cfg, s) && m < |s.trace.log| && s.trace.log[m].Marked? && end <= m
    requires forall j, c | end <= j < m :: s.trace.log[j] != Refused(c, s.trace.log[m].note)
    requires ContextDone !in s.trace.log[..end]
    requires forall c :: TimedOut(c, s.trace.log[m].note) !in s.trace.log[..end]
    ensures forall c: nat | c < cfg.channels :: SentOn(s.trace.log[..m], c, s.trace.log[m].note)
  {
    var log, t := s.trace.log, s.trace.log[m].note;
    AllChannelsUnlessRefused(cfg, s, m);
    forall c: nat | c < cfg.channels ensures Refused(c, t) !in log[..m] {
      if Refused(c, t) in log[..m] {
        var r :| 0 <= r < m && log[..m][r] == Refused(c, t);
        assert r < end && log[..end][r] == Refused(c, t);
        RefusalHasACause(cfg, s, c, t, end);
      }
    }
  }

  /** A group with a failed send is never marked by that round. */
  lemma FailedSendIsNeverMarked(cfg: Config, s: State, c: nat, t: Note)
    requires Reachable(cfg, s) && SendReturned(c, t, false) in s.trace.log
    ensures Marked(t) !in s.trace.log
  {
    var log := s.trace.log;
    if Marked(t) in log {
      var j :| 0 <= j < |log| && log[j] == SendReturned(c, t, false);
      var m :| 0 <= m < |log| && log[m] == Marked(t);
      PrefixHas(log, j, m);
      JustifiedAt(cfg, s, j);
      var a :| 0 <= a < j && log[..j][a] == Accepted(c, t);
      LateSendIsImpossible(cfg, s, c, t, a, j, m);
    }
  }

  /** A channel that has a record when the note is marked gets no further one. */
  lemma LateSendIsImpossible(cfg: Config, s: State, c: nat, t: Note, a: nat, j: nat, m: nat)
    requires Reachable(cfg, s) && a < j < |s.trace.log| && m < |s.trace.log|
    requires s.trace.log[a] == Accepted(c, t) && s.trace.log[j] == SendReturned(c, t, false)
    ensures s.trace.log[m] != Marked(t)
  {
    var log := s.trace.log;
    if log[m] == Marked(t) {
      JustifiedAt(cfg, s, j);
      JustifiedAt(cfg, s, m);
      PrefixHas(log, j, m);
      assert SentOn(log[..m], c, t) || SkippedOn(log[..m], c, t);
      var e := if SentOn(log[..m], c, t) then SendReturned(c, t, true) else Refused(c, t);
      var b :| 0 <= b < m && log[..m][b] == e;
      PrefixHas(log, b, j);
      PrefixHas(log, b, |log|);
      PrefixHas(log, a, |log|);
      AcceptedOrRefused(cfg, s, c, t, |log|);
    }
  }

  // ----- one group after the other

  /** A channel that accepted an earlier group has answered, and its answer has been collected, before any channel is
      given the next one: a slow channel holds up all others. */
  lemma EarlierGroupsWereAnswered(cfg: Config, s: State, u: Note, c: nat, t: Note)
    requires Reachable(cfg, s) && InFlight(s, u) && t != u && c < cfg.channels && Accepted(c, t) in s.trace.log
    ensures exists ok :: SendReturned(c, t, ok) in s.trace.log && Collected(SendResult(t, c, ok)) in s.trace.log
  {
    TokensAreConserved(cfg, s, c, t);
    assert !InFlight(s, t);
    assert Accepts(s, c, t) > 0;
    var ok := Sends(s, c, t, true) > 0;
    assert Sends(s, c, t, ok) > 0 && Collects(s, c, t, ok) > 0;
    assert SendReturned(c, t, ok) in s.trace.log && Collected(SendResult(t, c, ok)) in s.trace.log;
  }

  /** In particular at the moment a channel is given a group. */
  lemma NoChannelRunsAhead(cfg: Config, s: State, c: nat, t: Note)
    requires Reachable(cfg, s) && CanPoll(cfg, s, Offer) && t != Current(s.loop)
    requires c < cfg.channels && Accepted(c, t) in s.trace.log
    ensures exists ok :: SendReturned(c, t, ok) in s.trace.log && Collected(SendResult(t, c, ok)) in s.trace.log
  {
    EarlierGroupsWereAnswered(cfg, s, Current(s.loop), c, t);
  }
}
