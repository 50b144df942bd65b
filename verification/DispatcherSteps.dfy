/** What one stretch of the dispatcher's code does to its locals, to the log and to the pipes, with the other goroutines
    moving in between. */
module DispatcherSteps {
  import opened Relay
  import opened RelayInvariant
  import opened RelayHistory
  import opened RelayTheorems
  import opened RelayProgress
  import opened RelaySettlement

  predicate Theirs(a: Action) {
    a.Outside? || a.Work?
  }

  predicate OnlyTheirs(actions: seq<Action>) {
    forall a | a in actions :: Theirs(a)
  }

  ghost predicate WorkerCanMove(cfg: Config, p: Pipes) {
    exists w, k :: CanWork(cfg, p, w, k)
  }

  // ----- what the others leave alone

  predicate Foreign(e: Event, l: Loop) {
    || e.Saved? || e.ContextDone? || e.StoreClosed?
    || ((e.TimedOut? || e.SendReturned?) && l.at < |l.batch| && Token(e) == Current(l))
  }

  predicate SameFlags(p: Pipes, p': Pipes) {
    && |p'.queues| == |p.queues|
    && (forall q | 0 <= q < |p.queues| ::
          p'.queues[q].closed == p.queues[q].closed && p'.queues[q].done == p.queues[q].done)
  }

  ghost predicate AddsOnlyForeign(log: seq<Event>, log': seq<Event>, l: Loop) {
    log <= log' && forall i | |log| <= i < |log'| :: Foreign(log'[i], l)
  }

  /** The dispatcher's locals, the queue flags and every event of its own are as they were; its context can only have
      become done. */
  ghost predicate Undisturbed(cfg: Config, s: State, s': State) {
    && s'.loop == s.loop.(contextDone := s'.loop.contextDone)
    && (s.loop.contextDone ==> s'.loop.contextDone)
    && (s.host.cancelled ==> s'.host.cancelled)
    && SameFlags(s.pipes, s'.pipes)
    && AddsOnlyForeign(s.trace.log, s'.trace.log, s.loop)
    && ReachableRank(cfg, s') <= ReachableRank(cfg, s)
  }

  lemma UndisturbedTwice(cfg: Config, s: State, s': State, s'': State)
    requires Undisturbed(cfg, s, s') && Undisturbed(cfg, s', s'')
    ensures Undisturbed(cfg, s, s'')
  {
    var log, log', log'' := s.trace.log, s'.trace.log, s''.trace.log;
    forall i | |log| <= i < |log''| ensures Foreign(log''[i], s.loop) {
      if i < |log'| {
        assert log''[i] == log'[i];
      }
    }
  }

  lemma OutsideDisturbsNothing(cfg: Config, s: State, a: OutsideStep)
    requires Reachable(cfg, s) && CanOutside(cfg, s, a)
    ensures Undisturbed(cfg, s, DoOutside(cfg, s, a))
  {
    ReachableInv(cfg, s);
    OutsideKeepsRank(cfg, s, a);
  }

  lemma WorkLogsForeign(cfg: Config, s: State, w: nat, a: WorkStep)
    requires Flow(cfg, s) && CanWork(cfg, s.pipes, w, a)
    ensures AddsOnlyForeign(s.trace.log, DoWork(cfg, s, w, a).trace.log, s.loop)
    ensures SameFlags(s.pipes, DoWork(cfg, s, w, a).pipes)
  {
    assert s.pipes.workers[w].Holding? ==> InFlight(s, s.pipes.workers[w].note);
  }

  lemma WorkDisturbsNothing(cfg: Config, s: State, w: nat, a: WorkStep)
    requires Reachable(cfg, s) && CanWork(cfg, s.pipes, w, a)
    ensures Undisturbed(cfg, s, DoWork(cfg, s, w, a))
    ensures ReachableRank(cfg, DoWork(cfg, s, w, a)) < ReachableRank(cfg, s)
  {
    ReachableInv(cfg, s);
    WorkLowersRank(cfg, s, w, a);
    WorkLogsForeign(cfg, s, w, a);
  }

  lemma TheirStepDisturbsNothing(cfg: Config, s: State, a: Action)
    requires Reachable(cfg, s) && Enabled(cfg, s, a) && Theirs(a)
    ensures Undisturbed(cfg, s, Apply(cfg, s, a))
  {
    match a
    case Outside(o) => OutsideDisturbsNothing(cfg, s, o);
    case Work(w, k) => WorkDisturbsNothing(cfg, s, w, k);
  }

  // ----- what one round adds to the log

  /** An event that may occur in the round of `t`. */
  predicate OfRound(e: Event, t: Note) {
    (IsTokenEvent(e) ==> Token(e) == t) && !e.Fetched? && !e.FetchFailed?
  }

  ghost predicate AddsRound(log: seq<Event>, log': seq<Event>, t: Note) {
    log <= log' && forall i | |log| <= i < |log'| :: OfRound(log'[i], t)
  }

  lemma AddTwice(base: seq<Event>, log: seq<Event>, log': seq<Event>, t: Note)
    requires AddsRound(base, log, t) && AddsRound(log, log', t)
    ensures AddsRound(base, log', t)
  {
    forall i | |base| <= i < |log'| ensures OfRound(log'[i], t) {
      if i < |log| {
        assert log'[i] == log[i];
      }
    }
  }

  lemma AddForeign(base: seq<Event>, log: seq<Event>, log': seq<Event>, l: Loop)
    requires l.at < |l.batch| && AddsRound(base, log, Current(l)) && AddsOnlyForeign(log, log', l)
    ensures AddsRound(base, log', Current(l))
  {
    assert AddsRound(log, log', Current(l));
    AddTwice(base, log, log', Current(l));
  }

  lemma AddOne(base: seq<Event>, log: seq<Event>, e: Event, t: Note)
    requires AddsRound(base, log, t) && OfRound(e, t)
    ensures AddsRound(base, log + [e], t) && e in log + [e]
  {
    assert (log + [e])[|log|] == e;
  }

  predicate Answered(log: seq<Event>, c: nat, t: Note) {
    Accepted(c, t) in log || Refused(c, t) in log
  }

  lemma StaysAnswered(base: seq<Event>, log: seq<Event>, c: nat, t: Note)
    requires base <= log && Answered(base, c, t)
    ensures Answered(log, c, t)
  {
    var e := if Accepted(c, t) in base then Accepted(c, t) else Refused(c, t);
    var i :| 0 <= i < |base| && base[i] == e;
    assert log[i] == e;
  }

  ghost predicate AllAnswered(cfg: Config, log: seq<Event>, t: Note) {
    forall c: nat | c < cfg.channels :: Answered(log, c, t)
  }

  lemma StayAllAnswered(cfg: Config, base: seq<Event>, log: seq<Event>, t: Note)
    requires base <= log && AllAnswered(cfg, base, t)
    ensures AllAnswered(cfg, log, t)
  {
    forall c: nat | c < cfg.channels ensures Answered(log, c, t) {
      StaysAnswered(base, log, c, t);
    }
  }

  // ----- Enqueue, step by step

  lemma LoadFindsOpen(cfg: Config, s: State)
    requires Reachable(cfg, s) && s.loop.pc.FanOut? && s.loop.channel < cfg.channels
    ensures Shape(cfg, s.pipes) && s.loop.at < |s.loop.batch|
    ensures !s.pipes.queues[s.loop.channel].closed && CanPoll(cfg, s, LoadClosed)
  {
    ReachableInv(cfg, s);
    PollingFindsQueuesOpen(cfg, s);
  }

  lemma SelectIsReady(cfg: Config, s: State)
    requires Reachable(cfg, s) && s.loop.pc.Enqueuing?
    ensures Shape(cfg, s.pipes) && s.loop.at < |s.loop.batch| && s.loop.channel < cfg.channels
    ensures s.pipes.queues[s.loop.channel].HasRoom()
  {
    ReachableInv(cfg, s);
    EnqueueAlwaysHasRoom(cfg, s);
  }

  /** What one `Enqueue` does to the dispatcher's locals and to the log. */
  ghost predicate EnqueueEffect(s: State, s': State, ok: bool) {
    var l, l' := s.loop, s'.loop;
    && l.at < |l.batch|
    && l' == l.(channel := l.channel + 1, enqueued := l.enqueued + (if ok then 1 else 0), contextDone := l'.contextDone)
    && AddsRound(s.trace.log, s'.trace.log, Current(l))
    && (if ok then Accepted(l.channel, Current(l)) else Refused(l.channel, Current(l))) in s'.trace.log
  }

  ghost predicate SelectEffect(s: State, s': State, ok: bool) {
    var l := s.loop;
    && l.at < |l.batch|
    && s'.loop == l.(pc := FanOut, channel := l.channel + 1, enqueued := l.enqueued + (if ok then 1 else 0))
    && s'.trace.log == s.trace.log + [if ok then Accepted(l.channel, Current(l)) else Refused(l.channel, Current(l))]
  }

  lemma EnqueueSteps(cfg: Config, s0: State, s1: State, s2: State, s3: State, s4: State, ok: bool)
    requires Undisturbed(cfg, s0, s1) && s1.loop.pc.FanOut? && s1.loop.at < |s1.loop.batch|
    requires s2.trace == s1.trace && s2.loop == s1.loop.(pc := Enqueuing, contextDone := s2.loop.contextDone)
    requires Undisturbed(cfg, s2, s3) && SelectEffect(s3, s4, ok)
    ensures EnqueueEffect(s0, s4, ok)
  {
    var t := Current(s0.loop);
    AddForeign(s0.trace.log, s0.trace.log, s1.trace.log, s0.loop);
    AddForeign(s0.trace.log, s2.trace.log, s3.trace.log, s2.loop);
    AddOne(s0.trace.log, s3.trace.log,
                 if ok then Accepted(s3.loop.channel, t) else Refused(s3.loop.channel, t), t);
  }

  // ----- fanOutAndCollect, part by part

  /** The channel loop has come to `channel`, having counted `enqueued`; every channel before it has had its turn. */
  ghost predicate FanningOutEffect(s: State, s': State, channel: nat, enqueued: nat) {
    var l, l' := s.loop, s'.loop;
    && l.at < |l.batch|
    && l' == l.(channel := channel, enqueued := enqueued, contextDone := l'.contextDone)
    && AddsRound(s.trace.log, s'.trace.log, Current(l))
    && forall c: nat | c < channel :: Answered(s'.trace.log, c, Current(l))
  }

  lemma FanOutOneMore(s: State, s': State, s'': State, channel: nat, enqueued: nat, ok: bool)
    requires FanningOutEffect(s, s', channel, enqueued) && EnqueueEffect(s', s'', ok)
    ensures FanningOutEffect(s, s'', channel + 1, enqueued + (if ok then 1 else 0))
  {
    var t := Current(s.loop);
    AddTwice(s.trace.log, s'.trace.log, s''.trace.log, t);
    forall c: nat | c < channel + 1 ensures Answered(s''.trace.log, c, t) {
      if c < channel {
        StaysAnswered(s'.trace.log, s''.trace.log, c, t);
      }
    }
  }

  ghost predicate CollectingEffect(s: State, s': State, remaining: nat, allOK: bool) {
    var l, l' := s.loop, s'.loop;
    && l.at < |l.batch|
    && l' == l.(remaining := remaining, allOK := allOK, contextDone := l'.contextDone)
    && AddsRound(s.trace.log, s'.trace.log, Current(l))
  }

  lemma CollectOneMore(cfg: Config, s: State, s1: State, s2: State, s3: State, allOK: bool)
    requires s1.loop.remaining > 0 && CollectingEffect(s, s1, s1.loop.remaining, allOK) && Undisturbed(cfg, s1, s2)
    requires CanPoll(cfg, s2, Collect) && s3 == DoPoll(cfg, s2, Collect) && s2.pipes.results[0].note == Current(s.loop)
    ensures CollectingEffect(s, s3, s1.loop.remaining - 1, allOK && s2.pipes.results[0].ok)
  {
    var t := Current(s.loop);
    AddForeign(s.trace.log, s1.trace.log, s2.trace.log, s1.loop);
    AddOne(s.trace.log, s2.trace.log, Collected(s2.pipes.results[0]), t);
  }

  predicate AtNextGroup(l: Loop, l': Loop) {
    && l'.batch == l.batch
    && if l.at + 1 < |l.batch| then l'.pc.FanOut? && l'.at == l.at + 1 && l'.channel == 0 && l'.enqueued == 0
       else l'.pc.Idle?
  }

  /** The note has been offered to every channel, and only its own events have been added. */
  ghost predicate Offered(cfg: Config, s: State, s': State) {
    && s.loop.at < |s.loop.batch|
    && AddsRound(s.trace.log, s'.trace.log, Current(s.loop))
    && AllAnswered(cfg, s'.trace.log, Current(s.loop))
  }

  lemma OfferedStays(cfg: Config, s: State, s': State, s'': State)
    requires Offered(cfg, s, s') && AddsRound(s'.trace.log, s''.trace.log, Current(s.loop))
    ensures Offered(cfg, s, s'')
  {
    AddTwice(s.trace.log, s'.trace.log, s''.trace.log, Current(s.loop));
    StayAllAnswered(cfg, s'.trace.log, s''.trace.log, Current(s.loop));
  }

  /** What a whole round does: the dispatcher is at the next group, or done with the batch; the log has grown by
      events of this round alone; every channel has accepted or refused the note; `MarkSent` was called exactly if at
      least one channel took it and all that did delivered it; and nothing is left in the pipes. */
  ghost predicate RoundEffect(cfg: Config, s: State, s': State) {
    && Offered(cfg, s, s')
    && AtNextGroup(s.loop, s'.loop)
    && Settled(cfg, s'.trace.log, Current(s.loop))
    && Quiescent(cfg, s')
  }

  lemma RoundIsOver(cfg: Config, s: State, s': State)
    requires Offered(cfg, s, s') && AtNextGroup(s.loop, s'.loop) && Reachable(cfg, s')
    ensures RoundEffect(cfg, s, s')
  {
    QuiescentBetweenGroups(cfg, s');
    if s.loop.at + 1 < |s.loop.batch| {
      BatchIsDistinct(cfg, s', s.loop.at, s.loop.at + 1);
    }
    RoundsAreSettled(cfg, s', Current(s.loop), 0);
  }

  lemma BatchIsDistinct(cfg: Config, s: State, i: nat, j: nat)
    requires Reachable(cfg, s) && InRound(s.loop) && i < j < |s.loop.batch|
    ensures s.loop.batch[i] != s.loop.batch[j]
  {
    ReachableInv(cfg, s);
  }

  lemma NothingOpenToEnqueue(cfg: Config, s: State)
    requires Reachable(cfg, s) && s.loop.pc.FanOut? && s.loop.channel >= cfg.channels
    ensures CanPoll(cfg, s, EndFanOut)
  {
    ReachableInv(cfg, s);
  }

  // ----- poll

  predicate Query(e: Event) {
    e.Fetched? || e.FetchFailed?
  }

  ghost predicate NoQuerySince(base: seq<Event>, log: seq<Event>) {
    base <= log && forall i | |base| <= i < |log| :: !Query(log[i])
  }

  lemma NoQueryInRound(base: seq<Event>, log: seq<Event>, log': seq<Event>, t: Note)
    requires NoQuerySince(base, log) && AddsRound(log, log', t)
    ensures NoQuerySince(base, log')
  {
    forall i | |base| <= i < |log'| ensures !Query(log'[i]) {
      assert i < |log| ==> log'[i] == log[i];
      assert i >= |log| ==> OfRound(log'[i], t);
    }
  }

  ghost predicate OnlyQuery(log: seq<Event>, lo: nat, f: nat) {
    lo <= f < |log| && Query(log[f]) && forall i | lo <= i < |log| && i != f :: !Query(log[i])
  }

  /** One poll asks the store once. Every note it was given has then been offered to every channel, and `MarkSent` was
      called for it exactly if at least one channel took it and all that did delivered it. */
  ghost predicate PollEffect(cfg: Config, log: seq<Event>, log': seq<Event>) {
    exists f: nat :: && log <= log' && OnlyQuery(log', |log|, f)
      && (log'[f].Fetched? ==>
            forall i | 0 <= i < |log'[f].batch| ::
              AllAnswered(cfg, log', log'[f].batch[i]) && Settled(cfg, log', log'[f].batch[i]))
  }

  lemma PollEnds(cfg: Config, log: seq<Event>, asked: seq<Event>, e: Event, s: State, l: Loop)
    requires AddsOnlyForeign(log, asked, l) && Query(e) && NoQuerySince(asked + [e], s.trace.log)
    requires Reachable(cfg, s) && s.loop.pc.Idle?
    requires e.Fetched? ==> forall i | 0 <= i < |e.batch| :: AllAnswered(cfg, s.trace.log, e.batch[i])
    ensures PollEffect(cfg, log, s.trace.log) && Quiescent(cfg, s)
  {
    var f, log' := |asked|, s.trace.log;
    assert (asked + [e])[f] == e;
    assert log'[f] == e;
    forall i | |log| <= i < |log'| && i != f ensures !Query(log'[i]) {
      if i < f {
        assert (asked + [e])[i] == asked[i] && Foreign(asked[i], l);
      }
    }
    if e.Fetched? {
      forall i | 0 <= i < |e.batch| ensures Settled(cfg, log', e.batch[i]) {
        RoundsAreSettled(cfg, s, e.batch[i], 0);
      }
    }
    QuiescentBetweenGroups(cfg, s);
  }

  // ----- many polls

  /** How many queries the log holds. */
  function Queries(log: seq<Event>): nat {
    if log == [] then 0 else Queries(log[..|log| - 1]) + if Query(log[|log| - 1]) then 1 else 0
  }

  lemma {:induction false} QueriesUpTo(log: seq<Event>, n: nat, m: nat)
    requires n <= m <= |log| && forall i | n <= i < m :: !Query(log[i])
    ensures Queries(log[..m]) == Queries(log[..n])
    decreases m
  {
    if n < m {
      QueriesUpTo(log, n, m - 1);
      assert log[..m][..m - 1] == log[..m - 1];
    }
  }

  lemma NoQueryAddsNone(base: seq<Event>, log: seq<Event>)
    requires NoQuerySince(base, log)
    ensures Queries(log) == Queries(base)
  {
    QueriesUpTo(log, |base|, |log|);
    assert log[..|log|] == log && log[..|base|] == base;
  }

  lemma OnlyQueryCounts(log: seq<Event>, lo: nat, f: nat)
    requires OnlyQuery(log, lo, f)
    ensures Queries(log) == Queries(log[..lo]) + 1
  {
    QueriesUpTo(log, lo, f);
    assert log[..f + 1][..f] == log[..f];
    QueriesUpTo(log, f + 1, |log|);
    assert log[..|log|] == log;
  }

  lemma PollAddsOneQuery(cfg: Config, base: seq<Event>, log: seq<Event>)
    requires PollEffect(cfg, base, log)
    ensures Queries(log) == Queries(base) + 1
  {
    var f: nat :| OnlyQuery(log, |base|, f);
    OnlyQueryCounts(log, |base|, f);
    assert log[..|base|] == base;
  }

  lemma NoQueryTwice(base: seq<Event>, log: seq<Event>, log': seq<Event>)
    requires NoQuerySince(base, log) && NoQuerySince(log, log')
    ensures NoQuerySince(base, log')
  {
    forall i | |base| <= i < |log'| ensures !Query(log'[i]) {
      assert i < |log| ==> log'[i] == log[i];
    }
  }

  lemma ForeignIsNoQuery(log: seq<Event>, log': seq<Event>, l: Loop)
    requires AddsOnlyForeign(log, log', l)
    ensures NoQuerySince(log, log')
  {
    assert forall i | |log| <= i < |log'| :: Foreign(log'[i], l);
  }

  /** Every note that a query since `base` returned has been offered to every channel, and `MarkSent` was called for it
      exactly if at least one channel took it and all that did delivered it. */
  ghost predicate BatchesHandled(cfg: Config, base: seq<Event>, log: seq<Event>) {
    && base <= log
    && forall i | |base| <= i < |log| && log[i].Fetched? :: BatchHandled(cfg, log, log[i].batch)
  }

  ghost predicate BatchHandled(cfg: Config, log: seq<Event>, batch: seq<Note>) {
    forall i | 0 <= i < |batch| :: AllAnswered(cfg, log, batch[i]) && Settled(cfg, log, batch[i])
  }

  lemma StaysHandled(cfg: Config, log: seq<Event>, s: State, batch: seq<Note>)
    requires BatchHandled(cfg, log, batch) && log <= s.trace.log && Reachable(cfg, s) && !InRound(s.loop)
    ensures BatchHandled(cfg, s.trace.log, batch)
  {
    forall i | 0 <= i < |batch|
      ensures AllAnswered(cfg, s.trace.log, batch[i]) && Settled(cfg, s.trace.log, batch[i])
    {
      StayAllAnswered(cfg, log, s.trace.log, batch[i]);
      RoundsAreSettled(cfg, s, batch[i], 0);
    }
  }

  /** What comes after leaves the handled batches handled, be it one more poll or no query at all. */
  lemma BatchesStayHandled(cfg: Config, base: seq<Event>, log: seq<Event>, s: State)
    requires BatchesHandled(cfg, base, log) && Reachable(cfg, s) && !InRound(s.loop)
    requires PollEffect(cfg, log, s.trace.log) || NoQuerySince(log, s.trace.log)
    ensures BatchesHandled(cfg, base, s.trace.log)
  {
    var log' := s.trace.log;
    assert log <= log';
    forall i | |base| <= i < |log'| && log'[i].Fetched? ensures BatchHandled(cfg, log', log'[i].batch) {
      if i < |log| {
        assert log'[i] == log[i];
        StaysHandled(cfg, log, s, log'[i].batch);
      } else {
        assert Query(log'[i]);
      }
    }
  }

  /** So many polls since `base`, each with everything it fetched handled. */
  ghost predicate PolledSince(cfg: Config, base: seq<Event>, log: seq<Event>, polls: nat) {
    Queries(log) == Queries(base) + polls && BatchesHandled(cfg, base, log)
  }

  lemma WaitingPollsNothing(cfg: Config, base: seq<Event>, log: seq<Event>, s: State, polls: nat)
    requires PolledSince(cfg, base, log, polls) && NoQuerySince(log, s.trace.log)
    requires Reachable(cfg, s) && !InRound(s.loop)
    ensures PolledSince(cfg, base, s.trace.log, polls)
  {
    BatchesStayHandled(cfg, base, log, s);
    NoQueryAddsNone(log, s.trace.log);
  }

  lemma PollingPollsOnce(cfg: Config, base: seq<Event>, log: seq<Event>, s: State, polls: nat)
    requires PolledSince(cfg, base, log, polls) && PollEffect(cfg, log, s.trace.log)
    requires Reachable(cfg, s) && !InRound(s.loop)
    ensures PolledSince(cfg, base, s.trace.log, polls + 1)
  {
    BatchesStayHandled(cfg, base, log, s);
    PollAddsOneQuery(cfg, log, s.trace.log);
  }

  // ----- shutdown

  /** Every queue closed and empty, every worker gone, no result left. */
  ghost predicate Drained(cfg: Config, s: State) {
    && Shape(cfg, s.pipes)
    && (forall c: nat | c < cfg.channels ::
          s.pipes.queues[c].closed && s.pipes.queues[c].buffer == [] && s.pipes.workers[c].Exited?)
    && s.pipes.results == []
  }

  predicate AllExited(workers: seq<Worker>) {
    forall w | 0 <= w < |workers| :: workers[w].Exited?
  }

  ghost predicate ClosedExcept(cfg: Config, s: State, todo: set<nat>) {
    && Shape(cfg, s.pipes)
    && (forall q: nat | q < cfg.channels :: s.pipes.queues[q].closed <==> q !in todo)
  }

  lemma QueuesStartOpen(cfg: Config, s: State, todo: set<nat>)
    requires Reachable(cfg, s) && s.loop.pc.Idle?
    requires forall q: nat :: q in todo <==> q < cfg.channels
    ensures ClosedExcept(cfg, s, todo)
  {
    ReachableInv(cfg, s);
    PollingFindsQueuesOpen(cfg, s);
  }

  function Below(n: nat): (r: set<nat>)
    ensures forall q: nat :: q in r <==> q < n
  {
    if n == 0 then {} else Below(n - 1) + {n - 1}
  }

  lemma SwapCloses(cfg: Config, s: State, q: nat, todo: set<nat>)
    requires ClosedExcept(cfg, s, todo) && CanShutdown(s, SwapClosed(q)) && q in todo
    ensures ClosedExcept(cfg, DoShutdown(s, SwapClosed(q)), todo - {q})
  {
  }

  lemma SomeoneIsLeft(cfg: Config, s: State)
    requires Reachable(cfg, s) && s.loop.pc.AwaitingWorkers? && !AllExited(s.pipes.workers)
    ensures WorkerCanMove(cfg, s.pipes)
  {
    ReachableInv(cfg, s);
    var w :| 0 <= w < |s.pipes.workers| && !s.pipes.workers[w].Exited?;
    var k := ClosedWorkerCanMove(cfg, s, w);
  }
}
