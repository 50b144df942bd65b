/** The inductive invariant of the relay: where every accepted notification is, in every interleaving. */
module RelayInvariant {
  import opened Alerts
  import opened Basics
  import opened Relay

  // ----- where one token can be, and what the log says about it

  predicate Shape(cfg: Config, p: Pipes) {
    |p.queues| == cfg.channels && |p.workers| == cfg.channels
  }

  function Accepts(s: State, c: nat, t: Note): nat {
    multiset(s.trace.log)[Accepted(c, t)]
  }

  function Sends(s: State, c: nat, t: Note, ok: bool): nat {
    multiset(s.trace.log)[SendReturned(c, t, ok)]
  }

  function Collects(s: State, c: nat, t: Note, ok: bool): nat {
    multiset(s.trace.log)[Collected(SendResult(t, c, ok))]
  }

  function InQueue(s: State, c: nat, t: Note): nat
    requires c < |s.pipes.queues|
  {
    multiset(s.pipes.queues[c].buffer)[t]
  }

  function InHand(s: State, c: nat, t: Note): nat
    requires c < |s.pipes.workers|
  {
    if s.pipes.workers[c] == Holding(t) then 1 else 0
  }

  function InReport(s: State, c: nat, t: Note, ok: bool): nat
    requires c < |s.pipes.workers|
  {
    if s.pipes.workers[c] == Reporting(SendResult(t, c, ok)) then 1 else 0
  }

  function InResults(s: State, c: nat, t: Note, ok: bool): nat {
    multiset(s.pipes.results)[SendResult(t, c, ok)]
  }

  ghost predicate AcceptedBalance(s: State, c: nat, t: Note)
    requires c < |s.pipes.queues| && c < |s.pipes.workers|
  {
    Accepts(s, c, t) == InQueue(s, c, t) + InHand(s, c, t) + Sends(s, c, t, true) + Sends(s, c, t, false)
  }

  ghost predicate SentBalance(s: State, c: nat, t: Note, ok: bool)
    requires c < |s.pipes.workers|
  {
    Sends(s, c, t, ok) == InReport(s, c, t, ok) + InResults(s, c, t, ok) + Collects(s, c, t, ok)
  }

  /** Each accepted enqueue is in exactly one place, and every `Send` and every result comes from exactly one. */
  ghost predicate Conservation(cfg: Config, s: State) {
    && Shape(cfg, s.pipes)
    && (forall c: nat, t: Note | c < cfg.channels :: AcceptedBalance(s, c, t))
    && (forall c: nat, t: Note, ok: bool | c < cfg.channels :: SentBalance(s, c, t, ok))
  }

  // ----- control

  predicate BeforeShutdown(l: Loop) {
    l.pc.Idle? || InRound(l)
  }

  predicate QueuesSignalled(pc: DispatcherPc) {
    (pc.AwaitingWorkers? || pc.ReleasingWorkers? || pc.ClosingResults? || pc.DrainingResults? || pc.Returned?)
  }

  predicate WorkersReturned(pc: DispatcherPc) {
    (pc.ReleasingWorkers? || pc.ClosingResults? || pc.DrainingResults? || pc.Returned?)
  }

  ghost predicate QueueInv(cfg: Config, s: State, q: nat)
    requires q < |s.pipes.queues|
  {
    && s.pipes.queues[q].capacity == cfg.queueSize
    && |s.pipes.queues[q].buffer| <= cfg.queueSize
    && (s.pipes.queues[q].done ==> s.pipes.queues[q].closed)
    && (s.pipes.queues[q].closed && !s.pipes.queues[q].done ==> s.loop.pc == SignallingDone && s.loop.channel == q)
    && (BeforeShutdown(s.loop) ==> !s.pipes.queues[q].closed)
    && (QueuesSignalled(s.loop.pc) ==> s.pipes.queues[q].done)
  }

  ghost predicate WorkerInv(s: State, w: nat)
    requires w < |s.pipes.queues| && w < |s.pipes.workers|
  {
    && (s.pipes.workers[w].Draining? || s.pipes.workers[w].Exited? ==> s.pipes.queues[w].done)
    && (s.pipes.workers[w].Exited? ==> s.pipes.queues[w].buffer == [])
    && (WorkersReturned(s.loop.pc) ==> s.pipes.workers[w].Exited?)
  }

  ghost predicate FlagsInv(cfg: Config, s: State) {
    && (InRound(s.loop) ==> s.loop.at < |s.loop.batch| && cfg.channels > 0 && s.loop.channel <= cfg.channels)
    && (s.loop.pc == Enqueuing ==> s.loop.channel < cfg.channels)
    && (s.loop.pc == SignallingDone ==>
          && s.loop.channel < |s.pipes.queues|
          && s.pipes.queues[s.loop.channel].closed && !s.pipes.queues[s.loop.channel].done)
    && (s.pipes.workersCancelled ==> (s.loop.pc.ClosingResults? || s.loop.pc.DrainingResults? || s.loop.pc.Returned?))
    && (s.pipes.resultsClosed ==> (s.loop.pc.DrainingResults? || s.loop.pc.Returned?))
    && (!BeforeShutdown(s.loop) ==> s.host.cancelled)
    && (s.host.signalled ==> s.host.cancelled)
    && ((s.host.main.AwaitingDispatcher? || s.host.main.ClosingStore? || s.host.main.Finished?) ==> s.host.cancelled)
    && ((s.host.main.ClosingStore? || s.host.main.Finished?) ==> s.loop.pc == Returned)
  }

  /** The queues are open and the workers alive until `shutdown` begins; after that every stage finds the previous one
      complete. */
  ghost predicate ControlInv(cfg: Config, s: State) {
    && Shape(cfg, s.pipes)
    && (forall q: nat | q < cfg.channels :: QueueInv(cfg, s, q))
    && (forall w: nat | w < cfg.channels :: WorkerInv(s, w))
    && FlagsInv(cfg, s)
  }

  // ----- one round at a time

  predicate InFlight(s: State, t: Note) {
    InRound(s.loop) && s.loop.at < |s.loop.batch| && t == Current(s.loop)
  }

  /** Whatever is in a queue, in a worker's hand or among the results belongs to the group being handled. */
  ghost predicate Flow(cfg: Config, s: State) {
    && Shape(cfg, s.pipes)
    && (forall c, i | 0 <= c < cfg.channels && 0 <= i < |s.pipes.queues[c].buffer| ::
          InFlight(s, s.pipes.queues[c].buffer[i]))
    && (forall c | 0 <= c < cfg.channels && s.pipes.workers[c].Holding? :: InFlight(s, s.pipes.workers[c].note))
    && (forall c | 0 <= c < cfg.channels && s.pipes.workers[c].Reporting? ::
          InFlight(s, s.pipes.workers[c].result.note) && s.pipes.workers[c].result.channel == c)
    && (forall i | 0 <= i < |s.pipes.results| ::
          InFlight(s, s.pipes.results[i].note) && s.pipes.results[i].channel < cfg.channels)
  }

  predicate IsTokenEvent(e: Event) {
    e.TimedOut? || e.Accepted? || e.Refused? || e.SendReturned? || e.Collected? || e.Marked? || e.MarkFailed?
  }

  function Token(e: Event): Note
    requires IsTokenEvent(e)
  {
    match e
    case TimedOut(_, t) => t
    case Accepted(_, t) => t
    case Refused(_, t) => t
    case SendReturned(_, t, _) => t
    case Collected(r) => r.note
    case Marked(t) => t
    case MarkFailed(t) => t
  }

  /** The rounds that may have left traces in the log so far. */
  function Horizon(s: State): nat {
    if InRound(s.loop) && s.loop.at < |s.loop.batch| then Current(s.loop).round + 1 else s.trace.rounds
  }

  ghost predicate Freshness(s: State) {
    && (forall i | 0 <= i < |s.trace.log| && IsTokenEvent(s.trace.log[i]) :: Token(s.trace.log[i]).round < Horizon(s))
    && (InRound(s.loop) ==>
          && |s.loop.batch| <= s.trace.rounds
          && forall i | 0 <= i < |s.loop.batch| :: s.loop.batch[i].round == s.trace.rounds - |s.loop.batch| + i)
  }

  ghost predicate AcceptedOnce(cfg: Config, log: seq<Event>) {
    forall c: nat, t: Note :: multiset(log)[Accepted(c, t)] <= (if c < cfg.channels then 1 else 0)
  }

  // The record of one notification among `n` channels.

  ghost function AcceptedBy(n: nat, log: seq<Event>, t: Note): set<nat> {
    set c: nat | c < n && Accepted(c, t) in log
  }

  ghost function RefusedBy(n: nat, log: seq<Event>, t: Note): set<nat> {
    set c: nat | c < n && Refused(c, t) in log
  }

  ghost function CollectedFrom(n: nat, log: seq<Event>, t: Note): set<nat> {
    set c: nat | c < n && (Collected(SendResult(t, c, true)) in log || Collected(SendResult(t, c, false)) in log)
  }

  ghost function FailedOn(n: nat, log: seq<Event>, t: Note): set<nat> {
    set c: nat | c < n && Collected(SendResult(t, c, false)) in log
  }

  lemma RecordAppend(n: nat, log: seq<Event>, e: Event, t: Note)
    ensures AcceptedBy(n, log + [e], t)
         == AcceptedBy(n, log, t) + (if e.Accepted? && e.note == t && e.channel < n then {e.channel} else {})
    ensures RefusedBy(n, log + [e], t)
         == RefusedBy(n, log, t) + (if e.Refused? && e.note == t && e.channel < n then {e.channel} else {})
    ensures CollectedFrom(n, log + [e], t)
         == CollectedFrom(n, log, t)
            + (if e.Collected? && e.result.note == t && e.result.channel < n then {e.result.channel} else {})
    ensures FailedOn(n, log + [e], t)
         == FailedOn(n, log, t)
            + (if e.Collected? && e.result.note == t && e.result.channel < n && !e.result.ok
               then {e.result.channel} else {})
  {
    assert e.Collected? ==> e.result == SendResult(e.result.note, e.result.channel, e.result.ok);
  }

  predicate FanningOut(l: Loop) {
    l.pc.FanOut? || l.pc.Enqueuing?
  }

  /** How far the channel loop of the current group has come. */
  function Decided(cfg: Config, l: Loop): nat {
    if FanningOut(l) then l.channel else cfg.channels
  }

  /** The locals of `fanOutAndCollect` count what they are meant to count: `accepted` and `refused` split the channels
      decided so far, `heard` are the channels whose result was collected and `failed` those that reported an error. */
  ghost predicate LocalsCount(cfg: Config, l: Loop, accepted: set<nat>, refused: set<nat>,
                              heard: set<nat>, failed: set<nat>)
  {
    && (forall c: nat :: c < Decided(cfg, l) <==> c in accepted || c in refused)
    && accepted !! refused
    && (FanningOut(l) ==> l.enqueued == |accepted| && heard == {})
    && (!FanningOut(l) ==> accepted != {})
    && (l.pc.Collecting? ==> l.remaining == |accepted| - |heard| && (l.allOK <==> failed == {}))
    && (l.pc.Marking? ==> heard == accepted && failed == {})
  }

  ghost predicate RoundInv(cfg: Config, l: Loop, log: seq<Event>) {
    InRound(l) && l.at < |l.batch| ==>
      var n, t := cfg.channels, Current(l);
      LocalsCount(cfg, l, AcceptedBy(n, log, t), RefusedBy(n, log, t), CollectedFrom(n, log, t), FailedOn(n, log, t))
  }

  ghost predicate Inv(cfg: Config, s: State) {
    && ValidConfig(cfg)
    && ControlInv(cfg, s)
    && Conservation(cfg, s)
    && Flow(cfg, s)
    && Freshness(s)
    && AcceptedOnce(cfg, s.trace.log)
    && RoundInv(cfg, s.loop, s.trace.log)
  }

  /** No notification anywhere between the dispatcher and the channels. */
  ghost predicate Quiescent(cfg: Config, s: State) {
    && Shape(cfg, s.pipes)
    && (forall c | 0 <= c < cfg.channels ::
          s.pipes.queues[c].buffer == [] && !s.pipes.workers[c].Holding? && !s.pipes.workers[c].Reporting?)
    && s.pipes.results == []
  }

  // ----- preservation

  lemma InitInv(cfg: Config)
    requires ValidConfig(cfg)
    ensures Inv(cfg, Init(cfg))
  {
  }

  lemma WorkKeepsFlags(cfg: Config, s: State, w: nat, a: WorkStep)
    requires ControlInv(cfg, s) && CanWork(cfg, s.pipes, w, a)
    ensures Shape(cfg, DoWork(cfg, s, w, a).pipes) && FlagsInv(cfg, DoWork(cfg, s, w, a))
  {
  }

  lemma WorkKeepsQueue(cfg: Config, s: State, w: nat, a: WorkStep, q: nat)
    requires ControlInv(cfg, s) && CanWork(cfg, s.pipes, w, a) && q < cfg.channels
    ensures QueueInv(cfg, DoWork(cfg, s, w, a), q)
  {
    assert QueueInv(cfg, s, q);
  }

  lemma WorkKeepsWorker(cfg: Config, s: State, w: nat, a: WorkStep, v: nat)
    requires ControlInv(cfg, s) && CanWork(cfg, s.pipes, w, a) && v < cfg.channels
    ensures WorkerInv(DoWork(cfg, s, w, a), v)
  {
    assert QueueInv(cfg, s, v) && WorkerInv(s, v);
  }

  lemma ShutdownKeepsFlags(cfg: Config, s: State, a: ShutdownStep)
    requires ControlInv(cfg, s) && CanShutdown(s, a)
    ensures Shape(cfg, DoShutdown(s, a).pipes) && FlagsInv(cfg, DoShutdown(s, a))
  {
    if a.SwapClosed? {
      assert QueueInv(cfg, s, a.queue);
    }
  }

  lemma ShutdownKeepsQueue(cfg: Config, s: State, a: ShutdownStep, q: nat)
    requires ControlInv(cfg, s) && CanShutdown(s, a) && q < cfg.channels
    ensures QueueInv(cfg, DoShutdown(s, a), q)
  {
    assert QueueInv(cfg, s, q);
  }

  lemma ShutdownKeepsWorker(cfg: Config, s: State, a: ShutdownStep, v: nat)
    requires ControlInv(cfg, s) && CanShutdown(s, a) && v < cfg.channels
    ensures WorkerInv(DoShutdown(s, a), v)
  {
    assert QueueInv(cfg, s, v) && WorkerInv(s, v);
  }

  lemma PollKeepsFlags(cfg: Config, s: State, a: PollStep)
    requires ControlInv(cfg, s) && CanPoll(cfg, s, a)
    ensures Shape(cfg, DoPoll(cfg, s, a).pipes) && FlagsInv(cfg, DoPoll(cfg, s, a))
  {
    if a.LoadClosed? {
      assert QueueInv(cfg, s, s.loop.channel);
    }
  }

  lemma PollKeepsQueue(cfg: Config, s: State, a: PollStep, q: nat)
    requires ControlInv(cfg, s) && CanPoll(cfg, s, a) && q < cfg.channels
    ensures Shape(cfg, DoPoll(cfg, s, a).pipes) && QueueInv(cfg, DoPoll(cfg, s, a), q)
  {
    assert QueueInv(cfg, s, q);
  }

  lemma PollKeepsWorker(cfg: Config, s: State, a: PollStep, w: nat)
    requires ControlInv(cfg, s) && CanPoll(cfg, s, a) && w < cfg.channels
    ensures Shape(cfg, DoPoll(cfg, s, a).pipes) && WorkerInv(DoPoll(cfg, s, a), w)
  {
    assert QueueInv(cfg, s, w) && WorkerInv(s, w);
  }

  lemma OutsideKeepsControl(cfg: Config, s: State, a: OutsideStep)
    requires ControlInv(cfg, s) && CanOutside(cfg, s, a)
    ensures ControlInv(cfg, DoOutside(cfg, s, a))
  {
    var s' := DoOutside(cfg, s, a);
    forall q: nat | q < cfg.channels ensures QueueInv(cfg, s', q) { assert QueueInv(cfg, s, q); }
    forall w: nat | w < cfg.channels ensures WorkerInv(s', w) { assert WorkerInv(s, w); }
  }

  // ----- preservation: conservation

  predicate MovesNoToken(e: Event) {
    !e.Accepted? && !e.SendReturned? && !e.Collected?
  }

  /** A step that moves no token: the same queues, hands and results, and nothing new in the log about tokens. */
  ghost predicate SameTokens(cfg: Config, s: State, s': State) {
    && Shape(cfg, s.pipes) && Shape(cfg, s'.pipes)
    && s'.pipes.workers == s.pipes.workers && s'.pipes.results == s.pipes.results
    && (forall c: nat | c < cfg.channels :: s'.pipes.queues[c].buffer == s.pipes.queues[c].buffer)
    && (s'.trace.log == s.trace.log
        || (&& |s'.trace.log| > |s.trace.log|
            && MovesNoToken(s'.trace.log[|s.trace.log|])
            && s'.trace.log == s.trace.log + [s'.trace.log[|s.trace.log|]]))
  }

  lemma SameTokensKeepConservation(cfg: Config, s: State, s': State)
    requires Conservation(cfg, s) && SameTokens(cfg, s, s')
    ensures Conservation(cfg, s')
  {
    forall c: nat, t: Note | c < cfg.channels ensures AcceptedBalance(s', c, t) { assert AcceptedBalance(s, c, t); }
    forall c: nat, t: Note, ok: bool | c < cfg.channels ensures SentBalance(s', c, t, ok) {
      assert SentBalance(s, c, t, ok);
    }
  }

  lemma OutsideMovesNothing(cfg: Config, s: State, a: OutsideStep)
    requires Shape(cfg, s.pipes) && CanOutside(cfg, s, a)
    ensures SameTokens(cfg, s, DoOutside(cfg, s, a))
  {
  }

  lemma ShutdownMovesNothing(cfg: Config, s: State, a: ShutdownStep)
    requires Flow(cfg, s) && CanShutdown(s, a)
    ensures SameTokens(cfg, s, DoShutdown(s, a))
  {
    OutsideRoundMeansQuiescent(cfg, s);
  }

  lemma PollMovesNothing(cfg: Config, s: State, a: PollStep)
    requires Shape(cfg, s.pipes) && CanPoll(cfg, s, a) && !a.Offer? && !a.Collect?
    ensures SameTokens(cfg, s, DoPoll(cfg, s, a))
  {
  }

  lemma OfferKeepsAccepted(cfg: Config, s: State, c: nat, t: Note)
    requires Shape(cfg, s.pipes) && CanPoll(cfg, s, Offer) && c < cfg.channels && AcceptedBalance(s, c, t)
    ensures AcceptedBalance(DoPoll(cfg, s, Offer), c, t)
  {
  }

  lemma OfferKeepsSent(cfg: Config, s: State, c: nat, t: Note, ok: bool)
    requires Shape(cfg, s.pipes) && CanPoll(cfg, s, Offer) && c < cfg.channels && SentBalance(s, c, t, ok)
    ensures SentBalance(DoPoll(cfg, s, Offer), c, t, ok)
  {
  }

  lemma OfferKeepsConservation(cfg: Config, s: State)
    requires Conservation(cfg, s) && CanPoll(cfg, s, Offer)
    ensures Conservation(cfg, DoPoll(cfg, s, Offer))
  {
    var s' := DoPoll(cfg, s, Offer);
    forall c: nat, t: Note | c < cfg.channels ensures AcceptedBalance(s', c, t) {
      OfferKeepsAccepted(cfg, s, c, t);
    }
    forall c: nat, t: Note, ok: bool | c < cfg.channels ensures SentBalance(s', c, t, ok) {
      OfferKeepsSent(cfg, s, c, t, ok);
    }
  }

  lemma CollectKeepsConservation(cfg: Config, s: State)
    requires Conservation(cfg, s) && CanPoll(cfg, s, Collect)
    ensures Conservation(cfg, DoPoll(cfg, s, Collect))
  {
    var s' := DoPoll(cfg, s, Collect);
    assert s.pipes.results == [s.pipes.results[0]] + s.pipes.results[1..];
    forall c: nat, t: Note | c < cfg.channels ensures AcceptedBalance(s', c, t) { assert AcceptedBalance(s, c, t); }
    forall c: nat, t: Note, ok: bool | c < cfg.channels ensures SentBalance(s', c, t, ok) {
      assert SentBalance(s, c, t, ok);
    }
  }

  lemma PollKeepsConservation(cfg: Config, s: State, a: PollStep)
    requires Conservation(cfg, s) && CanPoll(cfg, s, a)
    ensures Conservation(cfg, DoPoll(cfg, s, a))
  {
    if a.Offer? {
      OfferKeepsConservation(cfg, s);
    } else if a.Collect? {
      CollectKeepsConservation(cfg, s);
    } else {
      PollMovesNothing(cfg, s, a);
      SameTokensKeepConservation(cfg, s, DoPoll(cfg, s, a));
    }
  }

  lemma WorkKeepsAccepted(cfg: Config, s: State, w: nat, a: WorkStep, c: nat, t: Note)
    requires Shape(cfg, s.pipes) && CanWork(cfg, s.pipes, w, a)
    requires c < cfg.channels && AcceptedBalance(s, c, t)
    ensures AcceptedBalance(DoWork(cfg, s, w, a), c, t)
  {
    if a.Take? {
      assert s.pipes.queues[w].buffer == [s.pipes.queues[w].Front()] + s.pipes.queues[w].Pop().buffer;
    }
  }

  lemma WorkKeepsSent(cfg: Config, s: State, w: nat, a: WorkStep, c: nat, t: Note, ok: bool)
    requires Flow(cfg, s) && CanWork(cfg, s.pipes, w, a)
    requires c < cfg.channels && SentBalance(s, c, t, ok)
    ensures SentBalance(DoWork(cfg, s, w, a), c, t, ok)
  {
  }

  lemma WorkKeepsConservation(cfg: Config, s: State, w: nat, a: WorkStep)
    requires Flow(cfg, s) && Conservation(cfg, s) && CanWork(cfg, s.pipes, w, a)
    ensures Conservation(cfg, DoWork(cfg, s, w, a))
  {
    var s' := DoWork(cfg, s, w, a);
    forall c: nat, t: Note | c < cfg.channels ensures AcceptedBalance(s', c, t) {
      WorkKeepsAccepted(cfg, s, w, a, c, t);
    }
    forall c: nat, t: Note, ok: bool | c < cfg.channels ensures SentBalance(s', c, t, ok) {
      WorkKeepsSent(cfg, s, w, a, c, t, ok);
    }
  }

  // ----- preservation: the round

  lemma CollectedWereAccepted(cfg: Config, s: State)
    requires Conservation(cfg, s) && s.loop.at < |s.loop.batch|
    ensures CollectedFrom(cfg.channels, s.trace.log, Current(s.loop))
         <= AcceptedBy(cfg.channels, s.trace.log, Current(s.loop))
  {
    var t := Current(s.loop);
    forall c | c in CollectedFrom(cfg.channels, s.trace.log, Current(s.loop))
      ensures c in AcceptedBy(cfg.channels, s.trace.log, Current(s.loop))
    {
      assert AcceptedBalance(s, c, t) && SentBalance(s, c, t, true) && SentBalance(s, c, t, false);
      assert Accepts(s, c, t) > 0;
    }
  }

  lemma HeardChannelIsQuiet(cfg: Config, s: State, c: nat)
    requires Conservation(cfg, s) && Flow(cfg, s) && AcceptedOnce(cfg, s.trace.log) && c < cfg.channels
    requires s.loop.at < |s.loop.batch|
    requires CollectedFrom(cfg.channels, s.trace.log, Current(s.loop))
          == AcceptedBy(cfg.channels, s.trace.log, Current(s.loop))
    ensures s.pipes.queues[c].buffer == [] && !s.pipes.workers[c].Holding? && !s.pipes.workers[c].Reporting?
    ensures InResults(s, c, Current(s.loop), true) == 0 && InResults(s, c, Current(s.loop), false) == 0
  {
    var t := Current(s.loop);
    var buffer := s.pipes.queues[c].buffer;
    assert buffer != [] ==> InFlight(s, buffer[0]);
    assert AcceptedBalance(s, c, t) && SentBalance(s, c, t, true) && SentBalance(s, c, t, false);
    assert Accepts(s, c, t) <= 1;
    if c !in AcceptedBy(cfg.channels, s.trace.log, Current(s.loop)) {
      assert Accepts(s, c, t) == 0;
    } else {
      assert Collects(s, c, t, true) > 0 || Collects(s, c, t, false) > 0;
    }
    assert InQueue(s, c, t) == 0 && InHand(s, c, t) == 0;
    assert InReport(s, c, t, true) == 0 && InReport(s, c, t, false) == 0;
    assert InResults(s, c, t, true) == 0 && InResults(s, c, t, false) == 0;
  }

  /** When every accepting channel has been heard, the pipes are empty. */
  lemma AllHeardMeansQuiescent(cfg: Config, s: State)
    requires Conservation(cfg, s) && Flow(cfg, s) && AcceptedOnce(cfg, s.trace.log)
    requires s.loop.at < |s.loop.batch|
    requires CollectedFrom(cfg.channels, s.trace.log, Current(s.loop))
          == AcceptedBy(cfg.channels, s.trace.log, Current(s.loop))
    ensures Quiescent(cfg, s)
  {
    var results := s.pipes.results;
    if results != [] {
      var r := results[0];
      assert InFlight(s, r.note) && r == SendResult(Current(s.loop), r.channel, r.ok);
      assert r in multiset(results);
      HeardChannelIsQuiet(cfg, s, r.channel);
      assert false;
    }
    forall c: nat | c < cfg.channels
      ensures s.pipes.queues[c].buffer == [] && !s.pipes.workers[c].Holding? && !s.pipes.workers[c].Reporting?
    {
      HeardChannelIsQuiet(cfg, s, c);
    }
  }

  lemma OutsideRoundMeansQuiescent(cfg: Config, s: State)
    requires Flow(cfg, s) && !InRound(s.loop)
    ensures Quiescent(cfg, s)
  {
    var p := s.pipes;
    assert p.results != [] ==> InFlight(s, p.results[0].note);
    assert forall c: nat | c < cfg.channels :: p.queues[c].buffer != [] ==> InFlight(s, p.queues[c].buffer[0]);
  }

  /** Every way out of a round finds the pipes empty. */
  lemma RoundEndsQuiescent(cfg: Config, s: State)
    requires Inv(cfg, s)
    requires || (s.loop.pc.FanOut? && s.loop.channel >= cfg.channels && s.loop.enqueued == 0)
             || (s.loop.pc.Collecting? && s.loop.remaining == 0)
             || s.loop.pc.Marking?
    ensures Quiescent(cfg, s)
  {
    CollectedWereAccepted(cfg, s);
    if s.loop.pc.Collecting? {
      SubsetOfSameSize(CollectedFrom(cfg.channels, s.trace.log, Current(s.loop)),
                       AcceptedBy(cfg.channels, s.trace.log, Current(s.loop)));
    }
    AllHeardMeansQuiescent(cfg, s);
  }

  // ----- preservation: flow, freshness, and the locals of the round

  lemma OutsideKeepsFlow(cfg: Config, s: State, a: OutsideStep)
    requires Flow(cfg, s) && CanOutside(cfg, s, a)
    ensures Flow(cfg, DoOutside(cfg, s, a))
  {
  }

  lemma ShutdownKeepsFlow(cfg: Config, s: State, a: ShutdownStep)
    requires Flow(cfg, s) && CanShutdown(s, a)
    ensures Flow(cfg, DoShutdown(s, a))
  {
    OutsideRoundMeansQuiescent(cfg, s);
  }

  lemma WorkKeepsFlow(cfg: Config, s: State, w: nat, a: WorkStep)
    requires Flow(cfg, s) && CanWork(cfg, s.pipes, w, a)
    ensures Flow(cfg, DoWork(cfg, s, w, a))
  {
  }

  predicate LeavesRound(l: Loop, a: PollStep) {
    (a.EndFanOut? && l.enqueued == 0) || (a.EndCollect? && !l.allOK) || a.MarkSent? || a.MarkSentFails?
  }

  lemma QuiescentFlows(cfg: Config, s: State)
    requires Quiescent(cfg, s)
    ensures Flow(cfg, s)
  {
  }

  lemma OfferKeepsFlow(cfg: Config, s: State)
    requires Flow(cfg, s) && CanPoll(cfg, s, Offer)
    ensures Flow(cfg, DoPoll(cfg, s, Offer))
  {
  }

  lemma CollectKeepsFlow(cfg: Config, s: State)
    requires Flow(cfg, s) && CanPoll(cfg, s, Collect)
    ensures Flow(cfg, DoPoll(cfg, s, Collect))
  {
  }

  predicate StartsOrEnds(l: Loop, a: PollStep) {
    a.Fetch? || a.FetchFails? || LeavesRound(l, a)
  }

  lemma BoundaryKeepsQuiescent(cfg: Config, s: State, a: PollStep)
    requires Quiescent(cfg, s) && CanPoll(cfg, s, a) && StartsOrEnds(s.loop, a)
    ensures Quiescent(cfg, DoPoll(cfg, s, a))
  {
  }

  lemma InnerStepKeepsFlow(cfg: Config, s: State, a: PollStep)
    requires Flow(cfg, s) && CanPoll(cfg, s, a) && !StartsOrEnds(s.loop, a) && !a.Offer? && !a.Collect?
    ensures Flow(cfg, DoPoll(cfg, s, a))
  {
  }

  lemma PollKeepsFlow(cfg: Config, s: State, a: PollStep)
    requires Flow(cfg, s) && CanPoll(cfg, s, a)
    requires LeavesRound(s.loop, a) ==> Quiescent(cfg, s)
    ensures Flow(cfg, DoPoll(cfg, s, a))
  {
    if StartsOrEnds(s.loop, a) {
      if !LeavesRound(s.loop, a) {
        OutsideRoundMeansQuiescent(cfg, s);
      }
      BoundaryKeepsQuiescent(cfg, s, a);
      QuiescentFlows(cfg, DoPoll(cfg, s, a));
    } else if a.Offer? {
      OfferKeepsFlow(cfg, s);
    } else if a.Collect? {
      CollectKeepsFlow(cfg, s);
    } else {
      InnerStepKeepsFlow(cfg, s, a);
    }
  }

  lemma OutsideKeepsFreshness(cfg: Config, s: State, a: OutsideStep)
    requires Freshness(s) && CanOutside(cfg, s, a)
    ensures Freshness(DoOutside(cfg, s, a))
  {
  }

  lemma ShutdownKeepsFreshness(cfg: Config, s: State, a: ShutdownStep)
    requires Freshness(s) && CanShutdown(s, a)
    ensures Freshness(DoShutdown(s, a))
  {
  }

  lemma WorkKeepsFreshness(cfg: Config, s: State, w: nat, a: WorkStep)
    requires Freshness(s) && Flow(cfg, s) && CanWork(cfg, s.pipes, w, a)
    ensures Freshness(DoWork(cfg, s, w, a))
  {
  }

  lemma FetchKeepsFreshness(cfg: Config, s: State, keys: seq<string>, stamps: seq<Time>)
    requires Freshness(s) && CanPoll(cfg, s, Fetch(keys, stamps))
    ensures Freshness(DoFetch(cfg, s, keys, stamps))
  {
  }

  lemma PollKeepsFreshness(cfg: Config, s: State, a: PollStep)
    requires Freshness(s) && Flow(cfg, s) && CanPoll(cfg, s, a)
    ensures Freshness(DoPoll(cfg, s, a))
  {
    match a
    case Fetch(keys, stamps) => FetchKeepsFreshness(cfg, s, keys, stamps);
    case Collect => assert InFlight(s, s.pipes.results[0].note);
    case _ =>
  }

  lemma NewNoteHasNoPast(s: State, t: Note)
    requires Freshness(s) && t.round >= Horizon(s)
    ensures forall e | e in s.trace.log && IsTokenEvent(e) :: Token(e) != t
  {
  }

  lemma LogKeepsAcceptedOnce(cfg: Config, s: State, s': State)
    requires AcceptedOnce(cfg, s.trace.log)
    requires s'.trace.log == s.trace.log || exists e: Event :: !e.Accepted? && s'.trace.log == s.trace.log + [e]
    ensures AcceptedOnce(cfg, s'.trace.log)
  {
    forall c: nat, t: Note ensures multiset(s'.trace.log)[Accepted(c, t)] <= (if c < cfg.channels then 1 else 0) {
      assert multiset(s.trace.log)[Accepted(c, t)] <= (if c < cfg.channels then 1 else 0);
    }
  }

  lemma OfferKeepsAcceptedOnce(cfg: Config, s: State)
    requires RoundInv(cfg, s.loop, s.trace.log) && AcceptedOnce(cfg, s.trace.log)
    requires Shape(cfg, s.pipes) && CanPoll(cfg, s, Offer)
    ensures AcceptedOnce(cfg, DoPoll(cfg, s, Offer).trace.log)
  {
    var s' := DoPoll(cfg, s, Offer);
    assert s.loop.channel !in AcceptedBy(cfg.channels, s.trace.log, Current(s.loop));
    forall c: nat, t: Note ensures multiset(s'.trace.log)[Accepted(c, t)] <= (if c < cfg.channels then 1 else 0) {
      assert multiset(s.trace.log)[Accepted(c, t)] <= (if c < cfg.channels then 1 else 0);
    }
  }

  /** An event that is not about this notification's fate leaves its record alone. */
  lemma OtherEventKeepsRound(cfg: Config, l: Loop, log: seq<Event>, e: Event)
    requires RoundInv(cfg, l, log) && !e.Accepted? && !e.Refused? && !e.Collected?
    ensures RoundInv(cfg, l, log + [e])
  {
    if InRound(l) && l.at < |l.batch| {
      RecordAppend(cfg.channels, log, e, Current(l));
    }
  }

  lemma OutsideKeepsRound(cfg: Config, s: State, a: OutsideStep)
    requires RoundInv(cfg, s.loop, s.trace.log) && CanOutside(cfg, s, a)
    ensures RoundInv(cfg, DoOutside(cfg, s, a).loop, DoOutside(cfg, s, a).trace.log)
  {
    var s' := DoOutside(cfg, s, a);
    if |s'.trace.log| > |s.trace.log| {
      OtherEventKeepsRound(cfg, s.loop, s.trace.log, s'.trace.log[|s.trace.log|]);
    }
  }

  lemma WorkKeepsRound(cfg: Config, s: State, w: nat, a: WorkStep)
    requires RoundInv(cfg, s.loop, s.trace.log) && CanWork(cfg, s.pipes, w, a)
    ensures RoundInv(cfg, DoWork(cfg, s, w, a).loop, DoWork(cfg, s, w, a).trace.log)
  {
    var s' := DoWork(cfg, s, w, a);
    if |s'.trace.log| > |s.trace.log| {
      OtherEventKeepsRound(cfg, s.loop, s.trace.log, s'.trace.log[|s.trace.log|]);
    }
  }

  /** A group begins with a clean record. */
  lemma FirstChannel(cfg: Config, l: Loop, log: seq<Event>)
    requires l.pc.FanOut? && l.channel == 0 && l.enqueued == 0 && l.at < |l.batch|
    requires forall e | e in log && IsTokenEvent(e) :: Token(e) != Current(l)
    ensures RoundInv(cfg, l, log)
  {
    var n, t := cfg.channels, Current(l);
    assert AcceptedBy(n, log, t) == {} && RefusedBy(n, log, t) == {} && CollectedFrom(n, log, t) == {};
  }

  lemma NewRoundKeepsInv(cfg: Config, s: State, s': State)
    requires Freshness(s)
    requires s'.loop.pc.FanOut? && s'.loop.channel == 0 && s'.loop.enqueued == 0 && s'.loop.at < |s'.loop.batch|
    requires Current(s'.loop).round >= Horizon(s)
    requires || s'.trace.log == s.trace.log
             || exists e: Event ::
                  (IsTokenEvent(e) ==> Token(e) != Current(s'.loop)) && s'.trace.log == s.trace.log + [e]
    ensures RoundInv(cfg, s'.loop, s'.trace.log)
  {
    NewNoteHasNoPast(s, Current(s'.loop));
    FirstChannel(cfg, s'.loop, s'.trace.log);
  }

  lemma NextGroupStartsRound(cfg: Config, s: State, a: PollStep)
    requires Freshness(s) && CanPoll(cfg, s, a) && (a.EndFanOut? || a.EndCollect? || a.MarkSent? || a.MarkSentFails?)
    requires InRound(s.loop) && DoPoll(cfg, s, a).loop == NextGroup(s.loop)
    ensures RoundInv(cfg, DoPoll(cfg, s, a).loop, DoPoll(cfg, s, a).trace.log)
  {
    var s' := DoPoll(cfg, s, a);
    if InRound(s'.loop) {
      NewRoundKeepsInv(cfg, s, s');
    }
  }

  lemma FetchStartsRound(cfg: Config, s: State, a: PollStep)
    requires Freshness(s) && CanPoll(cfg, s, a) && a.Fetch?
    ensures RoundInv(cfg, DoPoll(cfg, s, a).loop, DoPoll(cfg, s, a).trace.log)
  {
    var s' := DoPoll(cfg, s, a);
    if InRound(s'.loop) {
      NewRoundKeepsInv(cfg, s, s');
    }
  }

  lemma SkipKeepsRound(cfg: Config, s: State)
    requires RoundInv(cfg, s.loop, s.trace.log) && FanningOut(s.loop) && s.loop.channel < cfg.channels
    requires s.loop.at < |s.loop.batch|
    ensures RoundInv(cfg, SkipChannel(s).loop, SkipChannel(s).trace.log)
  {
    RecordAppend(cfg.channels, s.trace.log, Refused(s.loop.channel, Current(s.loop)), Current(s.loop));
  }

  lemma LoadKeepsRound(cfg: Config, s: State)
    requires RoundInv(cfg, s.loop, s.trace.log) && Shape(cfg, s.pipes) && CanPoll(cfg, s, LoadClosed)
    ensures RoundInv(cfg, DoPoll(cfg, s, LoadClosed).loop, DoPoll(cfg, s, LoadClosed).trace.log)
  {
    SkipKeepsRound(cfg, s);
  }

  lemma OfferCounts(cfg: Config, l: Loop, accepted: set<nat>, refused: set<nat>, heard: set<nat>, failed: set<nat>)
    requires LocalsCount(cfg, l, accepted, refused, heard, failed) && l.pc.Enqueuing?
    ensures LocalsCount(cfg, l.(pc := FanOut, channel := l.channel + 1, enqueued := l.enqueued + 1),
                        accepted + {l.channel}, refused, heard, failed)
  {
  }

  lemma OfferKeepsRound(cfg: Config, s: State)
    requires RoundInv(cfg, s.loop, s.trace.log) && Shape(cfg, s.pipes) && CanPoll(cfg, s, Offer)
    ensures RoundInv(cfg, DoPoll(cfg, s, Offer).loop, DoPoll(cfg, s, Offer).trace.log)
  {
    var n, log, t := cfg.channels, s.trace.log, Current(s.loop);
    RecordAppend(n, log, Accepted(s.loop.channel, t), t);
    OfferCounts(cfg, s.loop, AcceptedBy(n, log, t), RefusedBy(n, log, t),
                CollectedFrom(n, log, t), FailedOn(n, log, t));
  }

  lemma CollectingStarts(cfg: Config, s: State)
    requires RoundInv(cfg, s.loop, s.trace.log) && FlagsInv(cfg, s) && Shape(cfg, s.pipes)
    requires CanPoll(cfg, s, EndFanOut) && s.loop.enqueued > 0
    ensures RoundInv(cfg, DoPoll(cfg, s, EndFanOut).loop, DoPoll(cfg, s, EndFanOut).trace.log)
  {
    assert FailedOn(cfg.channels, s.trace.log, Current(s.loop))
        <= CollectedFrom(cfg.channels, s.trace.log, Current(s.loop));
  }

  /** The result at the head of the channel is the first one heard from its worker. */
  lemma ResultIsNew(cfg: Config, s: State)
    requires Conservation(cfg, s) && Flow(cfg, s) && AcceptedOnce(cfg, s.trace.log)
    requires s.loop.at < |s.loop.batch| && s.pipes.results != []
    ensures s.pipes.results[0].channel in AcceptedBy(cfg.channels, s.trace.log, Current(s.loop))
                                          - CollectedFrom(cfg.channels, s.trace.log, Current(s.loop))
    ensures s.pipes.results[0].note == Current(s.loop)
  {
    var r, t := s.pipes.results[0], Current(s.loop);
    assert InFlight(s, r.note);
    var c := r.channel;
    assert r == SendResult(t, c, r.ok) && r in multiset(s.pipes.results);
    assert AcceptedBalance(s, c, t) && SentBalance(s, c, t, true) && SentBalance(s, c, t, false);
    assert Accepts(s, c, t) <= 1;
    assert Collects(s, c, t, true) == 0 && Collects(s, c, t, false) == 0;
    assert Accepts(s, c, t) > 0;
  }

  lemma CollectCounts(cfg: Config, l: Loop, accepted: set<nat>, refused: set<nat>, heard: set<nat>, failed: set<nat>,
                      c: nat, ok: bool)
    requires LocalsCount(cfg, l, accepted, refused, heard, failed) && l.pc.Collecting? && l.remaining > 0
    requires c in accepted - heard
    ensures LocalsCount(cfg, l.(remaining := l.remaining - 1, allOK := l.allOK && ok),
                        accepted, refused, heard + {c}, failed + if ok then {} else {c})
  {
  }

  lemma CollectKeepsRound(cfg: Config, s: State)
    requires RoundInv(cfg, s.loop, s.trace.log) && CanPoll(cfg, s, Collect)
    requires s.pipes.results[0].note == Current(s.loop)
    requires s.pipes.results[0].channel in
               AcceptedBy(cfg.channels, s.trace.log, Current(s.loop))
               - CollectedFrom(cfg.channels, s.trace.log, Current(s.loop))
    ensures RoundInv(cfg, DoPoll(cfg, s, Collect).loop, DoPoll(cfg, s, Collect).trace.log)
  {
    var n, log, t, r := cfg.channels, s.trace.log, Current(s.loop), s.pipes.results[0];
    RecordAppend(n, log, Collected(r), t);
    CollectCounts(cfg, s.loop, AcceptedBy(n, log, t), RefusedBy(n, log, t), CollectedFrom(n, log, t),
                  FailedOn(n, log, t), r.channel, r.ok);
  }

  lemma MarkingStarts(cfg: Config, s: State)
    requires RoundInv(cfg, s.loop, s.trace.log) && Conservation(cfg, s) && CanPoll(cfg, s, EndCollect) && s.loop.allOK
    ensures RoundInv(cfg, DoPoll(cfg, s, EndCollect).loop, DoPoll(cfg, s, EndCollect).trace.log)
  {
    CollectedWereAccepted(cfg, s);
    SubsetOfSameSize(CollectedFrom(cfg.channels, s.trace.log, Current(s.loop)),
                     AcceptedBy(cfg.channels, s.trace.log, Current(s.loop)));
  }

  lemma PollKeepsRound(cfg: Config, s: State, a: PollStep)
    requires Inv(cfg, s) && CanPoll(cfg, s, a)
    ensures RoundInv(cfg, DoPoll(cfg, s, a).loop, DoPoll(cfg, s, a).trace.log)
  {
    match a
    case Fetch(_, _) => FetchStartsRound(cfg, s, a);
    case FetchFails =>
    case LoadClosed => LoadKeepsRound(cfg, s);
    case Offer => OfferKeepsRound(cfg, s);
    case EnqueueExpires => SkipKeepsRound(cfg, s);
    case EnqueueSeesDone => SkipKeepsRound(cfg, s);
    case EndFanOut =>
      if s.loop.enqueued == 0 { NextGroupStartsRound(cfg, s, a); } else { CollectingStarts(cfg, s); }
    case Collect => ResultIsNew(cfg, s); CollectKeepsRound(cfg, s);
    case EndCollect => if s.loop.allOK { MarkingStarts(cfg, s); } else { NextGroupStartsRound(cfg, s, a); }
    case MarkSent => NextGroupStartsRound(cfg, s, a);
    case MarkSentFails => NextGroupStartsRound(cfg, s, a);
  }

  // ----- all steps, all runs

  lemma OutsideKeepsInv(cfg: Config, s: State, a: OutsideStep)
    requires Inv(cfg, s) && CanOutside(cfg, s, a)
    ensures Inv(cfg, DoOutside(cfg, s, a))
  {
    OutsideKeepsControl(cfg, s, a);
    OutsideMovesNothing(cfg, s, a);
    SameTokensKeepConservation(cfg, s, DoOutside(cfg, s, a));
    OutsideKeepsFlow(cfg, s, a);
    OutsideKeepsFreshness(cfg, s, a);
    LogKeepsAcceptedOnce(cfg, s, DoOutside(cfg, s, a));
    OutsideKeepsRound(cfg, s, a);
  }

  lemma PollKeepsControl(cfg: Config, s: State, a: PollStep)
    requires ControlInv(cfg, s) && CanPoll(cfg, s, a)
    ensures ControlInv(cfg, DoPoll(cfg, s, a))
  {
    var s' := DoPoll(cfg, s, a);
    PollKeepsFlags(cfg, s, a);
    forall q: nat | q < cfg.channels ensures QueueInv(cfg, s', q) { PollKeepsQueue(cfg, s, a, q); }
    forall w: nat | w < cfg.channels ensures WorkerInv(s', w) { PollKeepsWorker(cfg, s, a, w); }
  }

  lemma PollKeepsAcceptedOnce(cfg: Config, s: State, a: PollStep)
    requires Inv(cfg, s) && CanPoll(cfg, s, a)
    ensures AcceptedOnce(cfg, DoPoll(cfg, s, a).trace.log)
  {
    if a.Offer? {
      OfferKeepsAcceptedOnce(cfg, s);
    } else {
      LogKeepsAcceptedOnce(cfg, s, DoPoll(cfg, s, a));
    }
  }

  lemma PollKeepsInv(cfg: Config, s: State, a: PollStep)
    requires Inv(cfg, s) && CanPoll(cfg, s, a)
    ensures Inv(cfg, DoPoll(cfg, s, a))
  {
    PollKeepsControl(cfg, s, a);
    PollKeepsConservation(cfg, s, a);
    if LeavesRound(s.loop, a) {
      RoundEndsQuiescent(cfg, s);
    }
    PollKeepsFlow(cfg, s, a);
    PollKeepsFreshness(cfg, s, a);
    PollKeepsAcceptedOnce(cfg, s, a);
    PollKeepsRound(cfg, s, a);
  }

  lemma ShutdownKeepsInv(cfg: Config, s: State, a: ShutdownStep)
    requires Inv(cfg, s) && CanShutdown(s, a)
    ensures Inv(cfg, DoShutdown(s, a))
  {
    var s' := DoShutdown(s, a);
    ShutdownKeepsFlags(cfg, s, a);
    forall q: nat | q < cfg.channels ensures QueueInv(cfg, s', q) { ShutdownKeepsQueue(cfg, s, a, q); }
    forall w: nat | w < cfg.channels ensures WorkerInv(s', w) { ShutdownKeepsWorker(cfg, s, a, w); }
    ShutdownMovesNothing(cfg, s, a);
    SameTokensKeepConservation(cfg, s, s');
    ShutdownKeepsFlow(cfg, s, a);
    ShutdownKeepsFreshness(cfg, s, a);
    LogKeepsAcceptedOnce(cfg, s, s');
  }

  lemma WorkKeepsInv(cfg: Config, s: State, w: nat, a: WorkStep)
    requires Inv(cfg, s) && CanWork(cfg, s.pipes, w, a)
    ensures Inv(cfg, DoWork(cfg, s, w, a))
  {
    var s' := DoWork(cfg, s, w, a);
    WorkKeepsFlags(cfg, s, w, a);
    forall q: nat | q < cfg.channels ensures QueueInv(cfg, s', q) { WorkKeepsQueue(cfg, s, w, a, q); }
    forall v: nat | v < cfg.channels ensures WorkerInv(s', v) { WorkKeepsWorker(cfg, s, w, a, v); }
    WorkKeepsConservation(cfg, s, w, a);
    WorkKeepsFlow(cfg, s, w, a);
    WorkKeepsFreshness(cfg, s, w, a);
    LogKeepsAcceptedOnce(cfg, s, s');
    WorkKeepsRound(cfg, s, w, a);
  }

  lemma StepKeepsInv(cfg: Config, s: State, a: Action)
    requires Inv(cfg, s) && Enabled(cfg, s, a)
    ensures Inv(cfg, Apply(cfg, s, a))
  {
    match a
    case Outside(o) => OutsideKeepsInv(cfg, s, o);
    case Poll(p) => PollKeepsInv(cfg, s, p);
    case Shutdown(d) => ShutdownKeepsInv(cfg, s, d);
    case Work(w, k) => WorkKeepsInv(cfg, s, w, k);
  }

  lemma {:induction false} RunKeepsInv(cfg: Config, s: State, actions: seq<Action>)
    requires Inv(cfg, s) && Legal(cfg, s, actions)
    ensures Inv(cfg, Exec(cfg, s, actions))
    decreases |actions|
  {
    if actions != [] {
      StepKeepsInv(cfg, s, actions[0]);
      RunKeepsInv(cfg, Apply(cfg, s, actions[0]), actions[1..]);
    }
  }

  lemma ReachableInv(cfg: Config, s: State)
    requires Reachable(cfg, s)
    ensures Inv(cfg, s)
  {
    var actions :| Legal(cfg, Init(cfg), actions) && s == Exec(cfg, Init(cfg), actions);
    InitInv(cfg);
    RunKeepsInv(cfg, Init(cfg), actions);
  }
}
