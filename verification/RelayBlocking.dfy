/** One slow channel: what it holds up, and exactly when. */
module RelayBlocking {
  import opened Relay
  import opened RelayInvariant
  import opened RelayProgress
  import opened RelayVersions

  /** No step of worker `c` in the run: its channel's `Send` takes longer than all of it. */
  predicate WorkerSleeps(actions: seq<Action>, c: nat) {
    forall a | a in actions :: !(a.Work? && a.worker == c)
  }

  lemma StepKeepsOwing(cfg: Config, s: State, a: Action, c: nat, t: Note)
    requires Shape(cfg, s.pipes) && Enabled(cfg, s, a) && c < cfg.channels
    requires !(a.Work? && a.worker == c) && Owes(s, c, t)
    ensures Shape(cfg, Apply(cfg, s, a).pipes) && Owes(Apply(cfg, s, a), c, t)
  {
  }

  /** What a sleeping worker owes it goes on owing, so the round of that note cannot end. */
  lemma {:induction false} RunKeepsOwing(cfg: Config, s: State, actions: seq<Action>, c: nat, t: Note)
    requires Reachable(cfg, s) && Legal(cfg, s, actions) && WorkerSleeps(actions, c) && c < cfg.channels
    requires Shape(cfg, s.pipes) && Owes(s, c, t)
    ensures InFlight(Exec(cfg, s, actions), t)
    decreases |actions|
  {
    if actions == [] {
      ReachableInv(cfg, s);
      OwedIsInFlight(cfg, s, c, t);
    } else {
      assert actions[0] in actions;
      StepKeepsOwing(cfg, s, actions[0], c, t);
      ReachableStep(cfg, s, actions[0]);
      RunKeepsOwing(cfg, Apply(cfg, s, actions[0]), actions[1..], c, t);
    }
  }

  lemma OwedIsInFlight(cfg: Config, s: State, c: nat, t: Note)
    requires Flow(cfg, s) && c < cfg.channels && Owes(s, c, t)
    ensures InFlight(s, t)
  {
    if t in s.pipes.queues[c].buffer {
      var i :| 0 <= i < |s.pipes.queues[c].buffer| && s.pipes.queues[c].buffer[i] == t;
    }
  }

  /** Collecting, or about to mark. */
  predicate PastFanOut(l: Loop) {
    l.pc.Collecting? || l.pc.Marking?
  }

  /** When `c` owes nothing, the round can go on one step without its worker. */
  lemma RoundGoesOnWithout(cfg: Config, s: State, c: nat) returns (a: Action)
    requires Reachable(cfg, s) && PastFanOut(s.loop) && c < cfg.channels
    requires Shape(cfg, s.pipes) && s.loop.at < |s.loop.batch| && !Owes(s, c, Current(s.loop))
    ensures Enabled(cfg, s, a) && Finishing(a) && !(a.Work? && a.worker == c)
  {
    if s.loop.pc.Collecting? && s.loop.remaining > 0 && s.pipes.results == [] {
      var w, k := OwingWorkerCanMove(cfg, s);
      a := Work(w, k);
    } else if s.loop.pc.Collecting? {
      a := if s.loop.remaining == 0 then Poll(EndCollect) else Poll(Collect);
    } else {
      ReachableInv(cfg, s);
      RowsAreFiledUnderTheirKey(cfg, s);
      a := Poll(MarkSent);
    }
  }

  /** The dispatcher is at the next group, or done with the batch. */
  predicate Moved(l: Loop, l': Loop) {
    InRound(l') ==> l'.batch == l.batch && l'.at == l.at + 1
  }

  lemma WorkWithout(cfg: Config, s: State, w: nat, k: WorkStep, c: nat)
    requires Shape(cfg, s.pipes) && CanWork(cfg, s.pipes, w, k) && w != c && c < cfg.channels
    requires s.loop.at < |s.loop.batch| && !Owes(s, c, Current(s.loop))
    ensures var s' := DoWork(cfg, s, w, k);
            s'.loop == s.loop && Shape(cfg, s'.pipes) && !Owes(s', c, Current(s.loop))
  {
  }

  /** Such a step either ends the round or leaves everything as it has to be for the next one. */
  lemma StepWithout(cfg: Config, s: State, a: Action, c: nat)
    requires Shape(cfg, s.pipes) && Enabled(cfg, s, a) && c < cfg.channels
    requires PastFanOut(s.loop) && s.loop.at < |s.loop.batch| && Finishing(a)
    requires !(a.Work? && a.worker == c) && !Owes(s, c, Current(s.loop))
    ensures var s' := Apply(cfg, s, a);
            if PastFanOut(s'.loop)
            then s'.loop.batch == s.loop.batch && s'.loop.at == s.loop.at
                 && Shape(cfg, s'.pipes) && !Owes(s', c, Current(s.loop))
            else Moved(s.loop, s'.loop)
  {
    if a.Work? {
      WorkWithout(cfg, s, a.worker, a.work, c);
    }
  }

  /** Then the rest of the round needs no step of that worker at all. */
  lemma {:induction false} RoundEndsWithout(cfg: Config, s: State, c: nat) returns (actions: seq<Action>)
    requires Reachable(cfg, s) && PastFanOut(s.loop) && c < cfg.channels
    requires Shape(cfg, s.pipes) && s.loop.at < |s.loop.batch| && !Owes(s, c, Current(s.loop))
    ensures Legal(cfg, s, actions) && WorkerSleeps(actions, c)
    ensures Reachable(cfg, Exec(cfg, s, actions)) && Moved(s.loop, Exec(cfg, s, actions).loop)
    decreases ReachableRank(cfg, s)
  {
    var a := RoundGoesOnWithout(cfg, s, c);
    var s' := AfterStep(cfg, s, a);
    StepWithout(cfg, s, a, c);
    if PastFanOut(s'.loop) {
      var rest := RoundEndsWithout(cfg, s', c);
      actions := [a] + rest;
      assert actions[0] == a && actions[1..] == rest;
    } else {
      actions := [a];
      assert actions[0] == a && actions[1..] == [] && Legal(cfg, s', []);
    }
    assert Exec(cfg, s, actions) == Exec(cfg, s', actions[1..]);
  }

  lemma AfterStep(cfg: Config, s: State, a: Action) returns (s': State)
    requires Reachable(cfg, s) && Enabled(cfg, s, a) && Finishing(a)
    ensures s' == Apply(cfg, s, a) && Reachable(cfg, s') && ReachableRank(cfg, s') < ReachableRank(cfg, s)
  {
    ReachableInv(cfg, s);
    FinishingStepLowersRank(cfg, s, a);
    ReachableStep(cfg, s, a);
    s' := Apply(cfg, s, a);
  }

  /** Some run in which the worker of `c` takes no step brings the dispatcher past the current group. */
  ghost predicate CanMoveOnWithout(cfg: Config, s: State, c: nat, t: Note) {
    exists actions ::
      Legal(cfg, s, actions) && WorkerSleeps(actions, c) && !InFlight(Exec(cfg, s, actions), t)
  }

  lemma NextIsAnother(cfg: Config, end: State, l: Loop)
    requires Reachable(cfg, end) && Moved(l, end.loop) && l.at < |l.batch|
    ensures !InFlight(end, Current(l))
  {
    ReachableInv(cfg, end);
  }

  /** docs/architecture.md says that a slow e-mail does not block Pachca. The exact condition: once a group has
      been offered to all channels, the dispatcher can come to the next group without a further step of the worker of
      `c` if and only if `c` owes no answer for this one, because it refused it or has already reported. */
  lemma SlowChannelBlocksExactly(cfg: Config, s: State, c: nat)
    requires Reachable(cfg, s) && PastFanOut(s.loop) && c < cfg.channels
    ensures Shape(cfg, s.pipes) && s.loop.at < |s.loop.batch|
    ensures CanMoveOnWithout(cfg, s, c, Current(s.loop)) <==> !Owes(s, c, Current(s.loop))
  {
    ReachableInv(cfg, s);
    var t := Current(s.loop);
    if Owes(s, c, t) {
      forall actions | Legal(cfg, s, actions) && WorkerSleeps(actions, c) ensures InFlight(Exec(cfg, s, actions), t) {
        RunKeepsOwing(cfg, s, actions, c, t);
      }
    } else {
      var actions := RoundEndsWithout(cfg, s, c);
      NextIsAnother(cfg, Exec(cfg, s, actions), s.loop);
    }
  }
}
