/** The running relay as one state machine: the dispatcher goroutine, one worker goroutine per channel, the HTTP
    handlers that save groups, and `run` in main.go that starts and stops them (internal/notify/dispatcher.go,
    internal/notify/worker.go, main.go). One action is one atomic step of one goroutine: a channel operation, an
    atomic load or swap, one store call, the return of one `Send`. Actions of different goroutines interleave freely,
    and a `select` may take any of its ready cases. `log` and `versions` are history. No action depends on them:
    `Fetch` copies versions into the notes it makes and its guard asks that every row has one, which `FetchIsPossible`
    shows to hold always. */
module Relay {
  import opened Alerts
  import Queues
  import opened StoreSpec

  /** `channels` counts the configured channels, which are identified by their position. */
  datatype Config = Config(channels: nat, batchSize: nat, queueSize: nat, maxAlerts: int)

  /** What `validate` in internal/config/config.go guarantees about the sizes. */
  predicate ValidConfig(cfg: Config) {
    1 <= cfg.batchSize <= cfg.queueSize
  }

  /** The pointer that travels through a queue: the notification built from one fetched group. `version` names the
      `Save` whose payload it carries (the position of that event in the log) and `round` tells apart two
      notifications built from the same payload; neither is visible to the code. */
  datatype Note = Note(body: Notification, version: nat, round: nat)

  type NoteQueue = Queues.Queue<Note>

  datatype SendResult = SendResult(note: Note, channel: nat, ok: bool) {
    function GroupKey(): string { note.body.groupKey }
  }

  /** Where a worker stands: before the first `select` of `Dequeue`, in its second one, in the drain after `done`,
      about to call `Send`, about to push a result, or returned. */
  datatype Worker =
    | Polling
    | Waiting
    | Draining
    | Holding(note: Note)
    | Reporting(result: SendResult)
    | Exited

  datatype DispatcherPc =
    | Idle              // in the select of Run
    | FanOut            // at the head of the channel loop, before the closed check of Enqueue
    | Enqueuing         // in the select of Enqueue
    | Collecting
    | Marking
    | ClosingQueues     // between two Close calls of shutdown
    | SignallingDone    // inside Close, swap won, before close(done)
    | AwaitingWorkers
    | ReleasingWorkers
    | ClosingResults
    | DrainingResults
    | Returned

  datatype MainPc =
    | Serving
    | StoppingHttp
    | CancellingDispatcher
    | AwaitingDispatcher
    | ClosingStore
    | Finished

  datatype Event =
    | Saved(group: AlertGroup)
    | Fetched(batch: seq<Note>)
    | FetchFailed
    | ContextDone                          // the dispatcher context was cancelled
    | TimedOut(channel: nat, note: Note)   // the timer of one enqueue context fired
    | Accepted(channel: nat, note: Note)
    | Refused(channel: nat, note: Note)
    | SendReturned(channel: nat, note: Note, ok: bool)
    | Collected(result: SendResult)
    | Marked(note: Note)
    | MarkFailed(note: Note)
    | StoreClosed

  /** The alert table, with the version of every row beside it. */
  datatype Database = Database(table: Table, versions: map<string, nat>)

  /** Everything shared between the dispatcher and the workers, and the workers themselves. */
  datatype Pipes = Pipes(
    queues: seq<NoteQueue>,
    workers: seq<Worker>,
    workersCancelled: bool,
    results: seq<SendResult>,
    resultsClosed: bool)

  /** The dispatcher goroutine: its program counter and the locals of `poll` and `fanOutAndCollect`. `contextDone`
      belongs to the context of the enqueue in progress. */
  datatype Loop = Loop(
    pc: DispatcherPc,
    batch: seq<Note>,
    at: nat,
    channel: nat,
    contextDone: bool,
    enqueued: nat,
    remaining: nat,
    allOK: bool)

  /** The main goroutine, the HTTP server and the two contexts. */
  datatype Host = Host(main: MainPc, signalled: bool, cancelled: bool, httpOpen: bool)

  /** History: what happened, how many rounds were numbered, where the last fetch stands in the log. */
  datatype Trace = Trace(log: seq<Event>, rounds: nat, fetchedAt: nat)

  datatype State = State(db: Database, pipes: Pipes, loop: Loop, host: Host, trace: Trace)

  /** HTTP handlers, the operating system, timers, and the main goroutine. */
  datatype OutsideStep =
    | SaveCommits(group: AlertGroup, now: Time)
    | SignalArrives
    | EnqueueTimerFires
    | HttpFails
    | SeeSignal
    | HttpStopped(clean: bool)
    | CancelDispatcher
    | ReceiveDispatcherDone
    | CloseStore

  /** The dispatcher goroutine inside `poll` and `fanOutAndCollect`. */
  datatype PollStep =
    | Fetch(keys: seq<string>, stamps: seq<Time>)
    | FetchFails
    | LoadClosed
    | Offer
    | EnqueueExpires
    | EnqueueSeesDone
    | EndFanOut
    | Collect
    | EndCollect
    | MarkSent
    | MarkSentFails

  /** The dispatcher goroutine inside `shutdown`. */
  datatype ShutdownStep =
    | StopPolling
    | SwapClosed(queue: nat)
    | SignalDone
    | QueuesClosed
    | WorkersGone
    | ReleaseWorkers
    | CloseResults
    | DrainResult
    | EndDrain

  /** A worker goroutine. */
  datatype WorkStep =
    | Take
    | TryMisses
    | WaitCancelled
    | WaitSeesDone
    | DrainMisses
    | SendReturns(ok: bool)
    | Report

  datatype Action =
    | Outside(outside: OutsideStep)
    | Poll(poll: PollStep)
    | Shutdown(shutdown: ShutdownStep)
    | Work(worker: nat, work: WorkStep)

  function Init(cfg: Config): State {
    State(Database(map[], map[]),
          Pipes(seq(cfg.channels, _ => Queues.NewQueue(cfg.queueSize)), seq(cfg.channels, _ => Polling),
                false, [], false),
          Loop(Idle, [], 0, 0, false, 0, 0, false),
          Host(Serving, false, false, true),
          Trace([], 0, 0))
  }

  function ResultCapacity(cfg: Config): nat {
    cfg.channels * cfg.batchSize + 1
  }

  predicate StoreOpen(s: State) {
    !s.host.main.Finished?
  }

  predicate InRound(l: Loop) {
    l.pc.FanOut? || l.pc.Enqueuing? || l.pc.Collecting? || l.pc.Marking?
  }

  function Current(l: Loop): Note
    requires l.at < |l.batch|
  {
    l.batch[l.at]
  }

  function Append(t: Trace, e: Event): Trace {
    t.(log := t.log + [e])
  }

  function Logged(s: State, e: Event): State {
    s.(trace := Append(s.trace, e))
  }

  // ----- the outside world

  ghost predicate CanOutside(cfg: Config, s: State, a: OutsideStep) {
    match a
    case SaveCommits(g, _) => s.host.httpOpen && StoreOpen(s) && ValidGroup(g, cfg.maxAlerts)
    case SignalArrives => !s.host.signalled
    case EnqueueTimerFires => s.loop.pc.Enqueuing? && !s.loop.contextDone && s.loop.at < |s.loop.batch|
    case HttpFails => s.host.main.Serving?
    case SeeSignal => s.host.main.Serving? && s.host.signalled
    case HttpStopped(_) => s.host.main.StoppingHttp?
    case CancelDispatcher => s.host.main.CancellingDispatcher?
    case ReceiveDispatcherDone => s.host.main.AwaitingDispatcher? && s.loop.pc.Returned?
    case CloseStore => s.host.main.ClosingStore?
  }

  /** The signal context is the parent of the dispatcher context, which is the parent of the enqueue contexts. */
  function CancelContext(s: State, h: Host): State {
    s.(host := h.(cancelled := true), loop := s.loop.(contextDone := true), trace := Append(s.trace, ContextDone))
  }

  function DoOutside(cfg: Config, s: State, a: OutsideStep): State
    requires CanOutside(cfg, s, a)
  {
    match a
    case SaveCommits(g, now) =>
      s.(db := Database(Upsert(s.db.table, g, now), s.db.versions[g.groupKey := |s.trace.log|]),
         trace := Append(s.trace, Saved(g)))
    case SignalArrives => CancelContext(s, s.host.(signalled := true))
    case EnqueueTimerFires =>
      s.(loop := s.loop.(contextDone := true), trace := Append(s.trace, TimedOut(s.loop.channel, Current(s.loop))))
    case HttpFails => s.(host := s.host.(main := CancellingDispatcher))
    case SeeSignal => s.(host := s.host.(main := StoppingHttp))
    case HttpStopped(clean) => s.(host := s.host.(main := CancellingDispatcher, httpOpen := s.host.httpOpen && !clean))
    case CancelDispatcher => CancelContext(s, s.host.(main := AwaitingDispatcher))
    case ReceiveDispatcherDone => s.(host := s.host.(main := ClosingStore))
    case CloseStore => s.(host := s.host.(main := Finished), trace := Append(s.trace, StoreClosed))
  }

  // ----- one poll

  ghost predicate CanPoll(cfg: Config, s: State, a: PollStep) {
    var l, p := s.loop, s.pipes;
    && (InRound(l) ==> l.at < |l.batch|)
    && match a
       case Fetch(keys, stamps) =>
         && l.pc.Idle? && StoreOpen(s)
         && PendingAnswer(s.db.table, cfg.batchSize, keys) && |stamps| == |keys|
         && s.db.table.Keys <= s.db.versions.Keys
       case FetchFails => l.pc.Idle?
       case LoadClosed => l.pc.FanOut? && l.channel < |p.queues|
       case Offer => l.pc.Enqueuing? && l.channel < |p.queues| && p.queues[l.channel].HasRoom()
       case EnqueueExpires => l.pc.Enqueuing? && l.contextDone
       case EnqueueSeesDone => l.pc.Enqueuing? && l.channel < |p.queues| && p.queues[l.channel].done
       case EndFanOut => l.pc.FanOut? && l.channel >= |p.queues|
       case Collect => l.pc.Collecting? && l.remaining > 0 && p.results != []
       case EndCollect => l.pc.Collecting? && l.remaining == 0
       case MarkSent => l.pc.Marking? && StoreOpen(s) && Current(l).body.groupKey in s.db.table
       case MarkSentFails => l.pc.Marking?
  }

  /** The notifications of one poll. `stamps` are the readings of the clock, which may be anything. */
  function Tickets(db: Database, rounds: nat, keys: seq<string>, stamps: seq<Time>): seq<Note>
    requires |stamps| == |keys|
    requires forall i | 0 <= i < |keys| :: keys[i] in db.table && keys[i] in db.versions
  {
    seq(|keys|, i requires 0 <= i < |keys| =>
      Note(NewNotification(db.table[keys[i]].group, stamps[i]), db.versions[keys[i]], rounds + i))
  }

  /** Back to the batch loop of `poll`, or out of it. */
  function NextGroup(l: Loop): Loop {
    if l.at + 1 < |l.batch|
    then l.(pc := FanOut, at := l.at + 1, channel := 0, enqueued := 0)
    else l.(pc := Idle)
  }

  /** Back to the head of the channel loop, with this channel skipped. */
  function SkipChannel(s: State): State
    requires s.loop.at < |s.loop.batch|
  {
    s.(loop := s.loop.(pc := FanOut, channel := s.loop.channel + 1),
       trace := Append(s.trace, Refused(s.loop.channel, Current(s.loop))))
  }

  function DoFetch(cfg: Config, s: State, keys: seq<string>, stamps: seq<Time>): State
    requires CanPoll(cfg, s, Fetch(keys, stamps))
  {
    var batch := Tickets(s.db, s.trace.rounds, keys, stamps);
    var trace := Trace(s.trace.log + [Fetched(batch)], s.trace.rounds + |keys|, |s.trace.log|);
    if |batch| == 0 || cfg.channels == 0 then s.(trace := trace)
    else s.(trace := trace, loop := s.loop.(pc := FanOut, batch := batch, at := 0, channel := 0, enqueued := 0))
  }

  function PushCurrent(p: Pipes, l: Loop): Pipes
    requires l.at < |l.batch| && l.channel < |p.queues| && p.queues[l.channel].HasRoom()
  {
    p.(queues := p.queues[l.channel := p.queues[l.channel].Push(Current(l))])
  }

  function DoPoll(cfg: Config, s: State, a: PollStep): State
    requires CanPoll(cfg, s, a)
  {
    var l, p := s.loop, s.pipes;
    match a
    case Fetch(keys, stamps) => DoFetch(cfg, s, keys, stamps)
    case FetchFails => Logged(s, FetchFailed)
    case LoadClosed =>
      if p.queues[l.channel].closed then SkipChannel(s)
      else s.(loop := l.(pc := Enqueuing, contextDone := s.host.cancelled))
    case Offer =>
      s.(loop := l.(pc := FanOut, channel := l.channel + 1, enqueued := l.enqueued + 1),
         pipes := PushCurrent(p, l),
         trace := Append(s.trace, Accepted(l.channel, Current(l))))
    case EnqueueExpires => SkipChannel(s)
    case EnqueueSeesDone => SkipChannel(s)
    case EndFanOut =>
      s.(loop := if l.enqueued == 0 then NextGroup(l) else l.(pc := Collecting, remaining := l.enqueued, allOK := true))
    case Collect =>
      s.(loop := l.(remaining := l.remaining - 1, allOK := l.allOK && p.results[0].ok),
         pipes := p.(results := p.results[1..]),
         trace := Append(s.trace, Collected(p.results[0])))
    case EndCollect => s.(loop := if l.allOK then l.(pc := Marking) else NextGroup(l))
    case MarkSent =>
      s.(loop := NextGroup(l),
         db := s.db.(table := Mark(s.db.table, Current(l).body.groupKey)),
         trace := Append(s.trace, Marked(Current(l))))
    case MarkSentFails => s.(loop := NextGroup(l), trace := Append(s.trace, MarkFailed(Current(l))))
  }

  // ----- shutdown

  predicate CanShutdown(s: State, a: ShutdownStep) {
    var l, p := s.loop, s.pipes;
    match a
    case StopPolling => l.pc.Idle? && s.host.cancelled
    case SwapClosed(q) => l.pc.ClosingQueues? && q < |p.queues| && !p.queues[q].closed
    case SignalDone => l.pc.SignallingDone? && l.channel < |p.queues|
    case QueuesClosed => l.pc.ClosingQueues? && forall q | 0 <= q < |p.queues| :: p.queues[q].closed
    case WorkersGone => l.pc.AwaitingWorkers? && forall w | 0 <= w < |p.workers| :: p.workers[w].Exited?
    case ReleaseWorkers => l.pc.ReleasingWorkers?
    case CloseResults => l.pc.ClosingResults?
    case DrainResult => l.pc.DrainingResults? && p.results != []
    case EndDrain => l.pc.DrainingResults? && p.results == []
  }

  function DoShutdown(s: State, a: ShutdownStep): State
    requires CanShutdown(s, a)
  {
    var l, p := s.loop, s.pipes;
    match a
    case StopPolling => s.(loop := l.(pc := ClosingQueues))
    case SwapClosed(q) =>
      s.(loop := l.(pc := SignallingDone, channel := q),
         pipes := p.(queues := p.queues[q := p.queues[q].(closed := true)]))
    case SignalDone =>
      s.(loop := l.(pc := ClosingQueues),
         pipes := p.(queues := p.queues[l.channel := p.queues[l.channel].(done := true)]))
    case QueuesClosed => s.(loop := l.(pc := AwaitingWorkers))
    case WorkersGone => s.(loop := l.(pc := ReleasingWorkers))
    case ReleaseWorkers => s.(loop := l.(pc := ClosingResults), pipes := p.(workersCancelled := true))
    case CloseResults => s.(loop := l.(pc := DrainingResults), pipes := p.(resultsClosed := true))
    case DrainResult => s.(pipes := p.(results := p.results[1..]))
    case EndDrain => s.(loop := l.(pc := Returned))
  }

  // ----- one worker

  predicate CanWork(cfg: Config, p: Pipes, w: nat, a: WorkStep) {
    && w < |p.workers| && w < |p.queues|
    && match a
       case Take =>
         p.queues[w].HasItem() && (p.workers[w].Polling? || p.workers[w].Waiting? || p.workers[w].Draining?)
       case TryMisses => p.workers[w].Polling? && !p.queues[w].HasItem()
       case WaitCancelled => p.workers[w].Waiting? && p.workersCancelled
       case WaitSeesDone => p.workers[w].Waiting? && p.queues[w].done
       case DrainMisses => p.workers[w].Draining? && !p.queues[w].HasItem()
       case SendReturns(_) => p.workers[w].Holding?
       case Report => p.workers[w].Reporting? && |p.results| < ResultCapacity(cfg)
  }

  function DoWork(cfg: Config, s: State, w: nat, a: WorkStep): State
    requires CanWork(cfg, s.pipes, w, a)
  {
    var p := s.pipes;
    match a
    case Take =>
      s.(pipes := p.(workers := p.workers[w := Holding(p.queues[w].Front())],
                     queues := p.queues[w := p.queues[w].Pop()]))
    case TryMisses => s.(pipes := p.(workers := p.workers[w := Waiting]))
    case WaitCancelled => s.(pipes := p.(workers := p.workers[w := Exited]))
    case WaitSeesDone => s.(pipes := p.(workers := p.workers[w := Draining]))
    case DrainMisses => s.(pipes := p.(workers := p.workers[w := Exited]))
    case SendReturns(ok) =>
      var n := p.workers[w].note;
      s.(pipes := p.(workers := p.workers[w := Reporting(SendResult(n, w, ok))]),
         trace := Append(s.trace, SendReturned(w, n, ok)))
    case Report =>
      s.(pipes := p.(workers := p.workers[w := Polling], results := p.results + [p.workers[w].result]))
  }

  // ----- all of it

  ghost predicate Enabled(cfg: Config, s: State, a: Action) {
    match a
    case Outside(o) => CanOutside(cfg, s, o)
    case Poll(p) => CanPoll(cfg, s, p)
    case Shutdown(d) => CanShutdown(s, d)
    case Work(w, k) => CanWork(cfg, s.pipes, w, k)
  }

  function Apply(cfg: Config, s: State, a: Action): State
    requires Enabled(cfg, s, a)
  {
    match a
    case Outside(o) => DoOutside(cfg, s, o)
    case Poll(p) => DoPoll(cfg, s, p)
    case Shutdown(d) => DoShutdown(s, d)
    case Work(w, k) => DoWork(cfg, s, w, k)
  }

  // ----- runs

  ghost predicate Legal(cfg: Config, s: State, actions: seq<Action>)
    decreases |actions|
  {
    actions == [] || (Enabled(cfg, s, actions[0]) && Legal(cfg, Apply(cfg, s, actions[0]), actions[1..]))
  }

  ghost function Exec(cfg: Config, s: State, actions: seq<Action>): State
    requires Legal(cfg, s, actions)
    decreases |actions|
  {
    if actions == [] then s else Exec(cfg, Apply(cfg, s, actions[0]), actions[1..])
  }

  /** The states of a valid configuration's runs. */
  ghost predicate Reachable(cfg: Config, s: State) {
    ValidConfig(cfg) && exists actions :: Legal(cfg, Init(cfg), actions) && s == Exec(cfg, Init(cfg), actions)
  }
}
