/** The bounded closable queue (internal/notify/queue.go) under any number of concurrent callers.

    A Go channel operation, an atomic load and a compare-and-swap are one step each; between two steps of a call any
    other call may move. A `select` takes any one of its ready cases. */
module Queues {

  /** The shared fields: the buffered channel `ch` (oldest first), the flag `closed`, and whether `done` is closed. */
  datatype Queue<T> = Queue(buffer: seq<T>, capacity: nat, closed: bool, done: bool) {
    predicate HasRoom() { |buffer| < capacity }

    predicate HasItem() { buffer != [] }

    function Push(x: T): Queue<T>
      requires HasRoom()
    {
      this.(buffer := buffer + [x])
    }

    function Front(): T
      requires HasItem()
    {
      buffer[0]
    }

    function Pop(): Queue<T>
      requires HasItem()
    {
      this.(buffer := buffer[1..])
    }
  }

  function NewQueue<T>(size: nat): Queue<T> {
    Queue([], size, false, false)
  }

  // ----- callers

  /** Where one goroutine stands in its current call. `late` remembers that the call began after some `Close` had
      already won the compare-and-swap; `expired` says that the caller's context is done. */
  datatype Call<T> =
    | Outside
    | EnqueueCheck(item: T, late: bool, expired: bool)
    | EnqueueSelect(item: T, late: bool, expired: bool)
    | DequeueTry(expired: bool)
    | DequeueWait(expired: bool)
    | DequeueDrain
    | CloseSwap
    | CloseSignal

  /** What calls have returned, oldest first. */
  datatype Outcome<T> =
    | Accepted(item: T, late: bool, afterClose: bool)
    | RefusedFull(item: T, expired: bool)
    | RefusedClosed(item: T, closed: bool)
    | Dequeued(item: T)
    | DequeueCancelled(expired: bool)
    | DequeueClosed(closed: bool, left: nat)

  datatype System<T> = System(queue: Queue<T>, calls: map<nat, Call<T>>, doneClosed: nat, history: seq<Outcome<T>>)

  datatype Action<T> =
    | CallEnqueue(tid: nat, item: T)
    | CallDequeue(tid: nat)
    | CallClose(tid: nat)
    | Expire(tid: nat)
    | LoadClosed(tid: nat)
    | Offer(tid: nat)
    | EnqueueExpired(tid: nat)
    | EnqueueSeesDone(tid: nat)
    | Take(tid: nat)
    | TryMisses(tid: nat)
    | DequeueExpired(tid: nat)
    | DequeueSeesDone(tid: nat)
    | DrainMisses(tid: nat)
    | Swap(tid: nat)
    | Signal(tid: nat)

  function CallOf<T>(s: System<T>, tid: nat): Call<T> {
    if tid in s.calls then s.calls[tid] else Outside
  }

  predicate Enabled<T>(s: System<T>, a: Action<T>) {
    var call := CallOf(s, a.tid);
    match a
    case CallEnqueue(_, _) => call.Outside?
    case CallDequeue(_) => call.Outside?
    case CallClose(_) => call.Outside?
    case Expire(_) => call.EnqueueCheck? || call.EnqueueSelect? || call.DequeueTry? || call.DequeueWait?
    case LoadClosed(_) => call.EnqueueCheck?
    case Offer(_) => call.EnqueueSelect? && s.queue.HasRoom()
    case EnqueueExpired(_) => call.EnqueueSelect? && call.expired
    case EnqueueSeesDone(_) => call.EnqueueSelect? && s.queue.done
    case Take(_) => (call.DequeueTry? || call.DequeueWait? || call.DequeueDrain?) && s.queue.HasItem()
    case TryMisses(_) => call.DequeueTry? && !s.queue.HasItem()
    case DequeueExpired(_) => call.DequeueWait? && call.expired
    case DequeueSeesDone(_) => call.DequeueWait? && s.queue.done
    case DrainMisses(_) => call.DequeueDrain? && !s.queue.HasItem()
    case Swap(_) => call.CloseSwap?
    case Signal(_) => call.CloseSignal?
  }

  function Moved<T>(s: System<T>, tid: nat, call: Call<T>): System<T> {
    s.(calls := s.calls[tid := call])
  }

  function Returned<T>(s: System<T>, tid: nat, o: Outcome<T>): System<T> {
    s.(calls := s.calls[tid := Outside], history := s.history + [o])
  }

  function Apply<T>(s: System<T>, a: Action<T>): System<T>
    requires Enabled(s, a)
  {
    var q := s.queue;
    var call := CallOf(s, a.tid);
    match a
    case CallEnqueue(tid, x) => Moved(s, tid, EnqueueCheck(x, q.closed, false))
    case CallDequeue(tid) => Moved(s, tid, DequeueTry(false))
    case CallClose(tid) => Moved(s, tid, CloseSwap)
    case Expire(tid) => Moved(s, tid, call.(expired := true))
    case LoadClosed(tid) =>
      if q.closed then Returned(s, tid, RefusedClosed(call.item, true))
      else Moved(s, tid, EnqueueSelect(call.item, call.late, call.expired))
    case Offer(tid) => Returned(s.(queue := q.Push(call.item)), tid, Accepted(call.item, call.late, q.closed))
    case EnqueueExpired(tid) => Returned(s, tid, RefusedFull(call.item, call.expired))
    case EnqueueSeesDone(tid) => Returned(s, tid, RefusedClosed(call.item, q.closed))
    case Take(tid) => Returned(s.(queue := q.Pop()), tid, Dequeued(q.Front()))
    case TryMisses(tid) => Moved(s, tid, DequeueWait(call.expired))
    case DequeueExpired(tid) => Returned(s, tid, DequeueCancelled(call.expired))
    case DequeueSeesDone(tid) => Moved(s, tid, DequeueDrain)
    case DrainMisses(tid) => Returned(s, tid, DequeueClosed(q.closed, |q.buffer|))
    case Swap(tid) =>
      if q.closed then Moved(s, tid, Outside)
      else Moved(s.(queue := q.(closed := true)), tid, CloseSignal)
    case Signal(tid) => Moved(s.(queue := q.(done := true), doneClosed := s.doneClosed + 1), tid, Outside)
  }

  // ----- runs

  function Start<T>(capacity: nat): System<T> {
    System(NewQueue(capacity), map[], 0, [])
  }

  /** The state after a list of actions, or nothing if one of them was not possible. */
  datatype Reached<T> = Stuck | At(state: System<T>)

  function After<T>(capacity: nat, actions: seq<Action<T>>): Reached<T> {
    if actions == [] then At(Start(capacity))
    else
      var before := After(capacity, actions[..|actions| - 1]);
      var last := actions[|actions| - 1];
      if before.At? && Enabled(before.state, last) then At(Apply(before.state, last)) else Stuck
  }

  // ----- what the callers see

  function AcceptedItems<T>(history: seq<Outcome<T>>): seq<T> {
    if history == [] then []
    else
      var last := history[|history| - 1];
      AcceptedItems(history[..|history| - 1]) + (if last.Accepted? then [last.item] else [])
  }

  function DequeuedItems<T>(history: seq<Outcome<T>>): seq<T> {
    if history == [] then []
    else
      var last := history[|history| - 1];
      DequeuedItems(history[..|history| - 1]) + (if last.Dequeued? then [last.item] else [])
  }

  /** What each returned outcome tells its caller about the queue at that moment. */
  ghost predicate Truthful<T>(o: Outcome<T>) {
    match o
    case Accepted(_, late, _) => !late
    case RefusedFull(_, expired) => expired
    case RefusedClosed(_, closed) => closed
    case Dequeued(_) => true
    case DequeueCancelled(expired) => expired
    case DequeueClosed(closed, left) => closed && left == 0
  }

  /** The buffer is exactly what was accepted and not yet dequeued. */
  ghost predicate BufferInv<T>(s: System<T>, capacity: nat) {
    && s.queue.capacity == capacity
    && |s.queue.buffer| <= capacity
    && AcceptedItems(s.history) == DequeuedItems(s.history) + s.queue.buffer
  }

  /** Closing happens once, in two steps, and every call in flight knows enough about it. */
  ghost predicate ClosingInv<T>(s: System<T>) {
    ClosedOnce(s) && CallsKnow(s)
  }

  ghost predicate ClosedOnce<T>(s: System<T>) {
    && (s.queue.done ==> s.queue.closed)
    && s.doneClosed == (if s.queue.done then 1 else 0)
    && (forall t | t in s.calls && s.calls[t].CloseSignal? :: s.queue.closed && !s.queue.done)
    && (forall t, u | t in s.calls && u in s.calls && s.calls[t].CloseSignal? && s.calls[u].CloseSignal? :: t == u)
  }

  ghost predicate CallsKnow<T>(s: System<T>) {
    && (forall t | t in s.calls && s.calls[t].EnqueueSelect? :: !s.calls[t].late)
    && (forall t | t in s.calls && s.calls[t].EnqueueCheck? && s.calls[t].late :: s.queue.closed)
    && (forall t | t in s.calls && s.calls[t].DequeueDrain? :: s.queue.closed)
  }

  ghost predicate HistoryInv<T>(s: System<T>) {
    forall i | 0 <= i < |s.history| :: Truthful(s.history[i])
  }

  ghost predicate Inv<T>(s: System<T>, capacity: nat) {
    BufferInv(s, capacity) && ClosingInv(s) && HistoryInv(s)
  }

  lemma ItemsAppend<T>(h: seq<Outcome<T>>, o: Outcome<T>)
    ensures AcceptedItems(h + [o]) == AcceptedItems(h) + (if o.Accepted? then [o.item] else [])
    ensures DequeuedItems(h + [o]) == DequeuedItems(h) + (if o.Dequeued? then [o.item] else [])
  {
    assert (h + [o])[..|h|] == h;
  }

  lemma OfferKeepsBuffer<T>(s: System<T>, a: Action<T>, capacity: nat)
    requires BufferInv(s, capacity) && a.Offer? && Enabled(s, a)
    ensures BufferInv(Apply(s, a), capacity)
  {
    var call := CallOf(s, a.tid);
    ItemsAppend(s.history, Accepted(call.item, call.late, s.queue.closed));
  }

  lemma TakeKeepsBuffer<T>(s: System<T>, a: Action<T>, capacity: nat)
    requires BufferInv(s, capacity) && a.Take? && Enabled(s, a)
    ensures BufferInv(Apply(s, a), capacity)
  {
    ItemsAppend(s.history, Dequeued(s.queue.Front()));
    assert s.queue.buffer == [s.queue.Front()] + s.queue.Pop().buffer;
  }

  lemma OtherStepsLeaveBuffer<T>(s: System<T>, a: Action<T>)
    requires Enabled(s, a) && !a.Offer? && !a.Take?
    ensures var s' := Apply(s, a);
            && s'.queue.buffer == s.queue.buffer && s'.queue.capacity == s.queue.capacity
            && (s'.history == s.history
                || exists o :: s'.history == s.history + [o] && !o.Accepted? && !o.Dequeued?)
  {
  }

  lemma StepKeepsBuffer<T>(s: System<T>, a: Action<T>, capacity: nat)
    requires BufferInv(s, capacity) && Enabled(s, a)
    ensures BufferInv(Apply(s, a), capacity)
  {
    if a.Offer? {
      OfferKeepsBuffer(s, a, capacity);
    } else if a.Take? {
      TakeKeepsBuffer(s, a, capacity);
    } else {
      OtherStepsLeaveBuffer(s, a);
      var s' := Apply(s, a);
      if s'.history != s.history {
        var o :| s'.history == s.history + [o] && !o.Accepted? && !o.Dequeued?;
        ItemsAppend(s.history, o);
      }
    }
  }

  lemma StepKeepsClosedOnce<T>(s: System<T>, a: Action<T>)
    requires ClosedOnce(s) && Enabled(s, a)
    ensures ClosedOnce(Apply(s, a))
  {
  }

  lemma StepKeepsCallsKnow<T>(s: System<T>, a: Action<T>)
    requires ClosingInv(s) && Enabled(s, a)
    ensures CallsKnow(Apply(s, a))
  {
  }

  lemma StepKeepsClosing<T>(s: System<T>, a: Action<T>)
    requires ClosingInv(s) && Enabled(s, a)
    ensures ClosingInv(Apply(s, a))
  {
    StepKeepsClosedOnce(s, a);
    StepKeepsCallsKnow(s, a);
  }

  lemma StepKeepsHistory<T>(s: System<T>, a: Action<T>)
    requires ClosingInv(s) && HistoryInv(s) && Enabled(s, a)
    ensures HistoryInv(Apply(s, a))
  {
  }

  lemma {:induction false} RunKeepsInv<T>(capacity: nat, actions: seq<Action<T>>)
    requires After(capacity, actions).At?
    ensures Inv(After(capacity, actions).state, capacity)
  {
    if actions != [] {
      var front := actions[..|actions| - 1];
      RunKeepsInv(capacity, front);
      var s, a := After(capacity, front).state, actions[|actions| - 1];
      StepKeepsBuffer(s, a, capacity);
      StepKeepsClosing(s, a);
      StepKeepsHistory(s, a);
    }
  }

  /** In every run the queue is a first-in first-out buffer: the accepted items are the dequeued ones, in order,
      followed by what is still buffered, and the buffer never outgrows the capacity. */
  lemma QueueIsFifo<T>(capacity: nat, actions: seq<Action<T>>)
    requires After(capacity, actions).At?
    ensures var s := After(capacity, actions).state;
            && AcceptedItems(s.history) == DequeuedItems(s.history) + s.queue.buffer
            && |s.queue.buffer| <= capacity
  {
    RunKeepsInv(capacity, actions);
  }

  /** In every run `done` is closed at most once (a second close would panic); `ErrQueueClosed` from `Dequeue` means
      closed with nothing left; `ErrQueueFull` only ever means an expired context; and no `Enqueue` that began after
      a `Close` took effect is accepted. */
  lemma QueueReportsTruthfully<T>(capacity: nat, actions: seq<Action<T>>)
    requires After(capacity, actions).At?
    ensures var s := After(capacity, actions).state;
            && s.doneClosed <= 1
            && (forall o | o in s.history && o.DequeueClosed? :: o.closed && o.left == 0)
            && (forall o | o in s.history && o.RefusedFull? :: o.expired)
            && (forall o | o in s.history && o.RefusedClosed? :: o.closed)
            && (forall o | o in s.history && o.Accepted? :: !o.late)
  {
    RunKeepsInv(capacity, actions);
  }

  // ----- Enqueue against Close

  /** `actions` can happen one after the other from `s`. */
  ghost predicate Runs<T>(s: System<T>, actions: seq<Action<T>>)
    decreases |actions|
  {
    actions == [] || (Enabled(s, actions[0]) && Runs(Apply(s, actions[0]), actions[1..]))
  }

  /** Some continuation appends the item of the `Enqueue` call that `tid` is in: it offers before it calls again. */
  ghost predicate CanBeAccepted<T(!new)>(s: System<T>, tid: nat) {
    exists more: seq<Action<T>> ::
      && Runs(s, more) && Offer(tid) in more
      && (forall a | a in more && a.CallEnqueue? :: a.tid != tid)
  }

  /** In a closed queue nobody reaches the `select` of `Enqueue` any more. */
  lemma {:induction false} ClosedMeansNoOffer<T>(s: System<T>, more: seq<Action<T>>, tid: nat)
    requires s.queue.closed && !CallOf(s, tid).EnqueueSelect? && Runs(s, more)
    ensures Offer(tid) !in more
    decreases |more|
  {
    if more != [] {
      ClosedStaysOut(s, more[0], tid);
      ClosedMeansNoOffer(Apply(s, more[0]), more[1..], tid);
    }
  }

  lemma ClosedStaysOut<T>(s: System<T>, a: Action<T>, tid: nat)
    requires s.queue.closed && !CallOf(s, tid).EnqueueSelect? && Enabled(s, a)
    ensures a != Offer(tid)
    ensures Apply(s, a).queue.closed && !CallOf(Apply(s, a), tid).EnqueueSelect?
  {
  }

  lemma NewTid<T>(calls: map<nat, Call<T>>) returns (u: nat)
    ensures u !in calls
  {
    u := LargestPlusOne(calls.Keys);
  }

  lemma {:induction false} LargestPlusOne(tids: set<nat>) returns (u: nat)
    ensures forall t | t in tids :: t < u
  {
    if tids == {} {
      u := 0;
    } else {
      var t :| t in tids;
      var v := LargestPlusOne(tids - {t});
      u := if t < v then v else t + 1;
      assert forall x | x in tids :: x == t || x in tids - {t};
    }
  }

  lemma OfferAtOnce<T(!new)>(s: System<T>, tid: nat)
    requires CallOf(s, tid).EnqueueSelect? && s.queue.HasRoom()
    ensures CanBeAccepted(s, tid)
  {
    var more: seq<Action<T>> := [Offer(tid)];
    assert Runs(Apply(s, more[0]), more[1..]);
    assert Runs(s, more) && Offer(tid) in more;
  }

  /** A fresh goroutine takes an item first. */
  lemma OfferAfterTake<T(!new)>(s: System<T>, tid: nat)
    requires CallOf(s, tid).EnqueueSelect? && s.queue.HasItem() && |s.queue.buffer| <= s.queue.capacity
    ensures CanBeAccepted(s, tid)
  {
    var u := NewTid(s.calls);
    var more: seq<Action<T>> := [CallDequeue(u), Take(u), Offer(tid)];
    var s1 := Apply(s, more[0]);
    var s2 := Apply(s1, more[1]);
    assert CallOf(s1, tid) == CallOf(s, tid) && CallOf(s2, tid) == CallOf(s, tid);
    assert more[1..] == [Take(u), Offer(tid)] && more[1..][1..] == [Offer(tid)];
    var last: seq<Action<T>> := [Offer(tid)];
    assert Enabled(s2, last[0]) && Runs(Apply(s2, last[0]), last[1..]);
    assert Runs(s1, more[1..]);
    assert Enabled(s, more[0]) && Apply(s, more[0]) == s1;
    assert Runs(s, more);
    assert more[2] == Offer(tid);
  }

  /** In every run of a queue of positive capacity, once the queue is closed, an `Enqueue` call in progress can
      still be accepted if and only if it had passed its closed check before; one whose check is still to come is
      refused, however early it was called. */
  lemma AcceptedAfterCloseExactly<T(!new)>(capacity: nat, actions: seq<Action<T>>, tid: nat)
    requires capacity > 0 && After(capacity, actions).At?
    requires After(capacity, actions).state.queue.closed
    ensures CanBeAccepted(After(capacity, actions).state, tid)
            <==> CallOf(After(capacity, actions).state, tid).EnqueueSelect?
  {
    var s := After(capacity, actions).state;
    RunKeepsInv(capacity, actions);
    if CallOf(s, tid).EnqueueSelect? {
      if s.queue.HasRoom() {
        OfferAtOnce(s, tid);
      } else {
        OfferAfterTake(s, tid);
      }
    } else if CanBeAccepted(s, tid) {
      var more: seq<Action<T>> :| Runs(s, more) && Offer(tid) in more;
      ClosedMeansNoOffer(s, more, tid);
    }
  }

  // ----- the same in terms of the steps taken

  ghost predicate HasSwapped<T(!new)>(actions: seq<Action<T>>) {
    exists a :: a in actions && a.Swap?
  }

  ghost predicate HasSignalled<T(!new)>(actions: seq<Action<T>>) {
    exists a :: a in actions && a.Signal?
  }

  /** A queue is closed exactly from the first compare-and-swap on, and `done` exactly from the signal on. */
  lemma {:induction false} ClosedBySwap<T(!new)>(capacity: nat, actions: seq<Action<T>>)
    requires After(capacity, actions).At?
    ensures After(capacity, actions).state.queue.closed <==> HasSwapped(actions)
    ensures After(capacity, actions).state.queue.done <==> HasSignalled(actions)
  {
    if actions != [] {
      var n := |actions| - 1;
      ClosedBySwap(capacity, actions[..n]);
      assert actions == actions[..n] + [actions[n]];
      assert HasSwapped(actions) <==> HasSwapped(actions[..n]) || actions[n].Swap?;
      assert HasSignalled(actions) <==> HasSignalled(actions[..n]) || actions[n].Signal?;
    }
  }

  lemma {:induction false} SuffixRuns<T>(capacity: nat, actions: seq<Action<T>>, i: nat)
    requires After(capacity, actions).At? && i <= |actions|
    ensures After(capacity, actions[..i]).At?
    ensures Runs(After(capacity, actions[..i]).state, actions[i..])
    decreases |actions| - i
  {
    if i == |actions| {
      assert actions[..i] == actions;
    } else {
      SuffixRuns(capacity, actions, i + 1);
      assert actions[..i + 1][..i] == actions[..i];
      assert actions[i..][0] == actions[i] && actions[i..][1..] == actions[i + 1..];
    }
  }

  /** In every run, an `Enqueue` called after some `Close` has won the compare-and-swap never offers its item, nor does
      any later one of that goroutine. */
  lemma CalledAfterCloseNeverOffers<T(!new)>(capacity: nat, actions: seq<Action<T>>, h: nat, i: nat)
    requires After(capacity, actions).At? && h < i < |actions| && actions[h].Swap? && actions[i].CallEnqueue?
    ensures Offer(actions[i].tid) !in actions[i..]
  {
    SuffixRuns(capacity, actions, i);
    ClosedBySwap(capacity, actions[..i]);
    assert actions[..i][h] == actions[h];
    ClosedMeansNoOffer(After(capacity, actions[..i]).state, actions[i..], actions[i].tid);
  }

  /** An `Enqueue` that was already past its check when `Close` came can still be accepted afterwards: here it is
      accepted while `closed` is set, in a queue of any positive capacity. */
  lemma AcceptedAfterClose<T>(capacity: nat, x: T) returns (actions: seq<Action<T>>)
    requires capacity > 0
    ensures After(capacity, actions).At?
    ensures After(capacity, actions).state.history == [Accepted(x, false, true)]
    ensures After(capacity, actions).state.queue.done
  {
    actions := [];
    actions := AfterMore(capacity, actions, CallEnqueue(0, x));
    actions := AfterMore(capacity, actions, LoadClosed(0));
    actions := AfterMore(capacity, actions, CallClose(1));
    actions := AfterMore(capacity, actions, Swap(1));
    actions := AfterMore(capacity, actions, Signal(1));
    actions := AfterMore(capacity, actions, Offer(0));
  }

  lemma AfterMore<T>(capacity: nat, actions: seq<Action<T>>, a: Action<T>) returns (more: seq<Action<T>>)
    requires After(capacity, actions).At? && Enabled(After(capacity, actions).state, a)
    ensures After(capacity, more) == At(Apply(After(capacity, actions).state, a))
  {
    more := actions + [a];
    assert more[..|actions|] == actions;
  }

  /** No call is stranded: a call inside the queue has a step of its own, unless it is an `Enqueue` on a full open
      queue or a `Dequeue` on an empty open one whose context is still live. */
  lemma CallsAreOnlyBlockedByTheQueue<T>(s: System<T>, tid: nat)
    requires !CallOf(s, tid).Outside?
    ensures var call := CallOf(s, tid);
            (exists a: Action<T> :: a.tid == tid && !a.Expire? && Enabled(s, a))
            <==> !(|| (call.EnqueueSelect? && !call.expired && !s.queue.done && |s.queue.buffer| >= s.queue.capacity)
                   || (call.DequeueWait? && !call.expired && !s.queue.done && s.queue.buffer == []))
  {
    var call := CallOf(s, tid);
    var blocked := || (call.EnqueueSelect? && !call.expired && !s.queue.done && !s.queue.HasRoom())
                   || (call.DequeueWait? && !call.expired && !s.queue.done && !s.queue.HasItem());
    if !blocked {
      var a: Action<T> := match call
        case EnqueueCheck(_, _, _) => LoadClosed(tid)
        case EnqueueSelect(_, _, expired) =>
          if expired then EnqueueExpired(tid) else if s.queue.done then EnqueueSeesDone(tid) else Offer(tid)
        case DequeueTry(_) => if s.queue.HasItem() then Take(tid) else TryMisses(tid)
        case DequeueWait(expired) =>
          if s.queue.HasItem() then Take(tid) else if expired then DequeueExpired(tid) else DequeueSeesDone(tid)
        case DequeueDrain => if s.queue.HasItem() then Take(tid) else DrainMisses(tid)
        case CloseSwap => Swap(tid)
        case CloseSignal => Signal(tid)
        case Outside => CallClose(tid);
      assert Enabled(s, a);
    }
  }
}
