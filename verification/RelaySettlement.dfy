/** When `MarkSent` is called: over every run, exactly once for each round in which some channel took the note and every
    channel that took it delivered it, and never for any other. */
module RelaySettlement {
  import opened Relay
  import opened RelayInvariant
  import opened RelayHistory
  import opened RelayTheorems
  import opened RelayProgress

  predicate IsAttempt(e: Event) {
    e.Marked? || e.MarkFailed?
  }

  /** `MarkSent` was called for the note, with whatever success. */
  predicate Attempted(log: seq<Event>, t: Note) {
    Marked(t) in log || MarkFailed(t) in log
  }

  ghost predicate Settled(cfg: Config, log: seq<Event>, t: Note) {
    Attempted(log, t) <==> DeliveredWhereAccepted(cfg, log, t)
  }

  ghost predicate AttemptedOnce(log: seq<Event>) {
    forall m | 0 <= m < |log| && IsAttempt(log[m]) :: !Attempted(log[..m], Token(log[m]))
  }

  /** The round in progress has not reached `MarkSent`; all others are settled. */
  ghost predicate SettlementInv(cfg: Config, s: State) {
    && (forall t | InFlight(s, t) :: !Attempted(s.trace.log, t))
    && (forall t | !InFlight(s, t) :: Settled(cfg, s.trace.log, t))
    && AttemptedOnce(s.trace.log)
  }

  // ----- one event

  lemma OtherEventKeepsSettled(cfg: Config, log: seq<Event>, e: Event, t: Note)
    requires IsTokenEvent(e) ==> Token(e) != t
    ensures Settled(cfg, log + [e], t) <==> Settled(cfg, log, t)
    ensures Attempted(log + [e], t) <==> Attempted(log, t)
  {
    forall c: nat
      ensures SentOn(log, c, t) <==> SentOn(log + [e], c, t)
      ensures SkippedOn(log, c, t) <==> SkippedOn(log + [e], c, t)
    {
    }
  }

  lemma AttemptKeepsDelivered(cfg: Config, log: seq<Event>, e: Event, t: Note)
    requires IsAttempt(e)
    ensures DeliveredWhereAccepted(cfg, log + [e], t) <==> DeliveredWhereAccepted(cfg, log, t)
  {
    forall c: nat
      ensures SentOn(log, c, t) <==> SentOn(log + [e], c, t)
      ensures SkippedOn(log, c, t) <==> SkippedOn(log + [e], c, t)
    {
    }
  }

  lemma AppendKeepsOnce(log: seq<Event>, e: Event)
    requires AttemptedOnce(log) && (IsAttempt(e) ==> !Attempted(log, Token(e)))
    ensures AttemptedOnce(log + [e])
  {
    var log' := log + [e];
    forall m | 0 <= m < |log'| && IsAttempt(log'[m]) ensures !Attempted(log'[..m], Token(log'[m])) {
      if m < |log| {
        assert log'[..m] == log[..m];
      } else {
        assert log'[..m] == log;
      }
    }
  }

  // ----- the three ways a round ends

  /** At `MarkSent` every channel that took the note has delivered it. */
  lemma MarkingMeansDelivered(cfg: Config, s: State)
    requires Reachable(cfg, s) && s.loop.pc.Marking?
    ensures s.loop.at < |s.loop.batch|
    ensures DeliveredWhereAccepted(cfg, s.trace.log, Current(s.loop))
  {
    ReachableInv(cfg, s);
    ReachableHistory(cfg, s);
    MarkIsJustified(cfg, s);
  }

  /** When nothing was accepted, nothing was delivered. */
  lemma NothingAcceptedNothingDelivered(cfg: Config, s: State)
    requires Reachable(cfg, s) && s.loop.pc.FanOut? && s.loop.enqueued == 0
    ensures s.loop.at < |s.loop.batch|
    ensures !DeliveredWhereAccepted(cfg, s.trace.log, Current(s.loop))
  {
    ReachableInv(cfg, s);
    var log, t := s.trace.log, Current(s.loop);
    forall c: nat | c < cfg.channels ensures !SentOn(log, c, t) {
      assert c !in AcceptedBy(cfg.channels, log, t);
    }
  }

  lemma CollectedWasSent(cfg: Config, s: State, r: SendResult)
    requires Reachable(cfg, s) && Collected(r) in s.trace.log
    ensures SendReturned(r.channel, r.note, r.ok) in s.trace.log
  {
    var log := s.trace.log;
    var i :| 0 <= i < |log| && log[i] == Collected(r);
    JustifiedAt(cfg, s, i);
    assert SendReturned(r.channel, r.note, r.ok) in log[..i];
  }

  /** When a collected result was an error, some channel took the note without delivering it. */
  lemma ErrorMeansUndelivered(cfg: Config, s: State)
    requires Reachable(cfg, s) && s.loop.pc.Collecting? && !s.loop.allOK
    ensures s.loop.at < |s.loop.batch|
    ensures !DeliveredWhereAccepted(cfg, s.trace.log, Current(s.loop))
  {
    ReachableInv(cfg, s);
    var n, log, t := cfg.channels, s.trace.log, Current(s.loop);
    var c :| c in FailedOn(n, log, t);
    CollectedWasSent(cfg, s, SendResult(t, c, false));
    assert SendReturned(c, t, false) in log;
    assert !SentOn(log, c, t) && !SkippedOn(log, c, t);
  }

  lemma AttemptedWasAccepted(cfg: Config, s: State, t: Note)
    requires Reachable(cfg, s) && Attempted(s.trace.log, t)
    ensures AcceptedBy(cfg.channels, s.trace.log, t) != {}
  {
    var log := s.trace.log;
    var m :| 0 <= m < |log| && (log[m] == Marked(t) || log[m] == MarkFailed(t));
    JustifiedAt(cfg, s, m);
    var c: nat :| c < cfg.channels && SentOn(log[..m], c, t);
    var i :| 0 <= i < m && log[..m][i] == Accepted(c, t);
    assert log[i] == Accepted(c, t);
    assert c in AcceptedBy(cfg.channels, log, t);
  }

  /** A round begins with no attempt to mark its note. */
  lemma RoundStartsFresh(cfg: Config, s: State)
    requires Reachable(cfg, s) && s.loop.pc.FanOut? && s.loop.channel == 0
    ensures s.loop.at < |s.loop.batch|
    ensures !Attempted(s.trace.log, Current(s.loop))
  {
    ReachableInv(cfg, s);
    var accepted := AcceptedBy(cfg.channels, s.trace.log, Current(s.loop));
    assert forall c | c in accepted :: c < Decided(cfg, s.loop);
    if Attempted(s.trace.log, Current(s.loop)) {
      AttemptedWasAccepted(cfg, s, Current(s.loop));
    }
  }

  // ----- one step

  /** What one step adds to the log: at most one event, about the note in flight if about any, and an attempt only as
      the round leaves `Marking`. */
  ghost predicate OneEvent(s: State, s': State) {
    || s'.trace.log == s.trace.log
    || exists e :: && s'.trace.log == s.trace.log + [e]
                   && (IsTokenEvent(e) ==> InFlight(s, Token(e)))
                   && (IsAttempt(e) ==> s.loop.pc.Marking?)
  }

  lemma PollLogsOneEvent(cfg: Config, s: State, a: PollStep)
    requires Flow(cfg, s) && CanPoll(cfg, s, a)
    ensures OneEvent(s, DoPoll(cfg, s, a))
  {
    var log, log' := s.trace.log, DoPoll(cfg, s, a).trace.log;
    if log' != log {
      assert log' == log + [log'[|log|]];
      assert a.Collect? ==> InFlight(s, s.pipes.results[0].note);
    }
  }

  lemma WorkLogsOneEvent(cfg: Config, s: State, w: nat, a: WorkStep)
    requires Flow(cfg, s) && CanWork(cfg, s.pipes, w, a)
    ensures OneEvent(s, DoWork(cfg, s, w, a))
  {
    if a.SendReturns? {
      var n := s.pipes.workers[w].note;
      assert InFlight(s, n);
      assert DoWork(cfg, s, w, a).trace.log == s.trace.log + [SendReturned(w, n, a.ok)];
    }
  }

  lemma OutsideLogsOneEvent(cfg: Config, s: State, a: OutsideStep)
    requires FlagsInv(cfg, s) && CanOutside(cfg, s, a)
    ensures OneEvent(s, DoOutside(cfg, s, a))
  {
    var log, log' := s.trace.log, DoOutside(cfg, s, a).trace.log;
    if log' != log {
      assert log' == log + [log'[|log|]];
    }
  }

  lemma StepLogsOneEvent(cfg: Config, s: State, a: Action)
    requires Inv(cfg, s) && Enabled(cfg, s, a)
    ensures OneEvent(s, Apply(cfg, s, a))
  {
    match a
    case Outside(o) => OutsideLogsOneEvent(cfg, s, o);
    case Poll(p) => PollLogsOneEvent(cfg, s, p);
    case Shutdown(d) =>
    case Work(w, k) => WorkLogsOneEvent(cfg, s, w, k);
  }

  lemma OtherRoundsStaySettled(cfg: Config, s: State, s': State, t: Note)
    requires OneEvent(s, s') && !InFlight(s, t) && Settled(cfg, s.trace.log, t)
    ensures Settled(cfg, s'.trace.log, t)
  {
    if s'.trace.log != s.trace.log {
      var e :| s'.trace.log == s.trace.log + [e] && (IsTokenEvent(e) ==> InFlight(s, Token(e)));
      OtherEventKeepsSettled(cfg, s.trace.log, e, t);
    }
  }

  /** How a step can end the round of `t`. */
  lemma RoundEndsByPoll(cfg: Config, s: State, a: Action, t: Note)
    requires Enabled(cfg, s, a) && InFlight(s, t) && !InFlight(Apply(cfg, s, a), t)
    ensures a.Poll?
    ensures var log, log' := s.trace.log, Apply(cfg, s, a).trace.log;
            || (a.poll.EndFanOut? && s.loop.enqueued == 0 && log' == log)
            || (a.poll.EndCollect? && !s.loop.allOK && log' == log)
            || (a.poll.MarkSent? && log' == log + [Marked(t)])
            || (a.poll.MarkSentFails? && log' == log + [MarkFailed(t)])
  {
  }

  lemma EndedRoundIsSettled(cfg: Config, s: State, a: Action, t: Note)
    requires Reachable(cfg, s) && SettlementInv(cfg, s) && Enabled(cfg, s, a)
    requires InFlight(s, t) && !InFlight(Apply(cfg, s, a), t)
    ensures Settled(cfg, Apply(cfg, s, a).trace.log, t)
  {
    ReachableInv(cfg, s);
    RoundEndsByPoll(cfg, s, a, t);
    if a.poll.EndFanOut? {
      NothingAcceptedNothingDelivered(cfg, s);
    } else if a.poll.EndCollect? {
      ErrorMeansUndelivered(cfg, s);
    } else {
      MarkingMeansDelivered(cfg, s);
      AttemptKeepsDelivered(cfg, s.trace.log, if a.poll.MarkSent? then Marked(t) else MarkFailed(t), t);
    }
  }

  predicate AtFirstChannel(l: Loop) {
    l.pc.FanOut? && l.channel == 0
  }

  lemma PollGoesOn(cfg: Config, s: State, a: PollStep, t: Note)
    requires CanPoll(cfg, s, a) && InFlight(DoPoll(cfg, s, a), t) && !AtFirstChannel(DoPoll(cfg, s, a).loop)
    ensures InFlight(s, t) && !a.MarkSent? && !a.MarkSentFails?
  {
  }

  /** A step that leaves the round in progress is no attempt; any other one starts at the first channel. */
  lemma RoundGoesOn(cfg: Config, s: State, a: Action, t: Note)
    requires Enabled(cfg, s, a) && InFlight(Apply(cfg, s, a), t) && !AtFirstChannel(Apply(cfg, s, a).loop)
    ensures InFlight(s, t) && !(a.Poll? && (a.poll.MarkSent? || a.poll.MarkSentFails?))
  {
    if a.Poll? {
      PollGoesOn(cfg, s, a.poll, t);
    }
  }

  lemma OtherStepsAttemptNothing(cfg: Config, s: State, a: Action, t: Note)
    requires Enabled(cfg, s, a) && !(a.Poll? && (a.poll.MarkSent? || a.poll.MarkSentFails?))
    ensures Attempted(Apply(cfg, s, a).trace.log, t) <==> Attempted(s.trace.log, t)
  {
    var log, log' := s.trace.log, Apply(cfg, s, a).trace.log;
    if log' != log {
      assert log' == log + [log'[|log|]];
    }
  }

  lemma StepKeepsOnce(cfg: Config, s: State, a: Action)
    requires Inv(cfg, s) && SettlementInv(cfg, s) && Enabled(cfg, s, a)
    ensures AttemptedOnce(Apply(cfg, s, a).trace.log)
  {
    StepLogsOneEvent(cfg, s, a);
    var s' := Apply(cfg, s, a);
    if s'.trace.log != s.trace.log {
      var e :| s'.trace.log == s.trace.log + [e] && (IsTokenEvent(e) ==> InFlight(s, Token(e)));
      AppendKeepsOnce(s.trace.log, e);
    }
  }

  lemma StepKeepsSettlement(cfg: Config, s: State, a: Action)
    requires Reachable(cfg, s) && SettlementInv(cfg, s) && Enabled(cfg, s, a)
    ensures SettlementInv(cfg, Apply(cfg, s, a))
  {
    var s' := Apply(cfg, s, a);
    ReachableInv(cfg, s);
    ReachableStep(cfg, s, a);
    StepLogsOneEvent(cfg, s, a);
    StepKeepsOnce(cfg, s, a);
    forall t | InFlight(s', t) ensures !Attempted(s'.trace.log, t) {
      if AtFirstChannel(s'.loop) {
        RoundStartsFresh(cfg, s');
      } else {
        RoundGoesOn(cfg, s, a, t);
        OtherStepsAttemptNothing(cfg, s, a, t);
      }
    }
    forall t | !InFlight(s', t) ensures Settled(cfg, s'.trace.log, t) {
      if InFlight(s, t) {
        EndedRoundIsSettled(cfg, s, a, t);
      } else {
        OtherRoundsStaySettled(cfg, s, s', t);
      }
    }
  }

  lemma {:induction false} RunKeepsSettlement(cfg: Config, s: State, actions: seq<Action>)
    requires Reachable(cfg, s) && SettlementInv(cfg, s) && Legal(cfg, s, actions)
    ensures SettlementInv(cfg, Exec(cfg, s, actions))
    decreases |actions|
  {
    if actions != [] {
      ReachableStep(cfg, s, actions[0]);
      StepKeepsSettlement(cfg, s, actions[0]);
      RunKeepsSettlement(cfg, Apply(cfg, s, actions[0]), actions[1..]);
    }
  }

  lemma InitIsReachable(cfg: Config)
    requires ValidConfig(cfg)
    ensures Reachable(cfg, Init(cfg))
  {
    assert Legal(cfg, Init(cfg), []) && Exec(cfg, Init(cfg), []) == Init(cfg);
  }

  /** In every run, a note that is not in the round in progress has had `MarkSent` called for it exactly if at least one
      channel took it and every channel that took it delivered it; and it was called once at most. */
  lemma RoundsAreSettled(cfg: Config, s: State, t: Note, m: nat)
    requires Reachable(cfg, s)
    ensures !InFlight(s, t) ==> (Attempted(s.trace.log, t) <==> DeliveredWhereAccepted(cfg, s.trace.log, t))
    ensures m < |s.trace.log| && IsAttempt(s.trace.log[m]) ==> !Attempted(s.trace.log[..m], Token(s.trace.log[m]))
  {
    var actions :| Legal(cfg, Init(cfg), actions) && s == Exec(cfg, Init(cfg), actions);
    InitIsReachable(cfg);
    RunKeepsSettlement(cfg, Init(cfg), actions);
  }
}
