/** The queue's methods as they are written (internal/notify/queue.go): one goroutine's call, step by step, with every
    other goroutine free to move in between. Each method advances the state machine of `Queues`. */
module QueueCalls {
  import opened Basics
  import opened Queues

  datatype EnqueueResult = Enqueued | QueueFull | EnqueueClosed

  datatype DequeueResult<T> = Item(item: T) | Cancelled | DequeueClosed

  ghost predicate NoneBy<T>(actions: seq<Action<T>>, tid: nat) {
    forall a | a in actions :: a.tid != tid
  }

  /** The other goroutines do what they can do, and do not act for `tid`. */
  ghost predicate Lawful<T(!new)>(others: (nat, System<T>) -> seq<Action<T>>, tid: nat) {
    && (forall n, s :: Runs(s, others(n, s)))
    && (forall n, s :: NoneBy(others(n, s), tid))
  }

  /** Other goroutines that never move are lawful, so what follows is not about nothing. */
  lemma LawfulOthersExist<T(!new)>(tid: nat) returns (others: (nat, System<T>) -> seq<Action<T>>)
    ensures Lawful(others, tid)
  {
    others := (n: nat, s: System<T>) => [];
  }

  /** What the others leave alone: the caller's own place; nothing is taken back from the history, and a closed queue
      stays closed. */
  ghost predicate Later<T>(s: System<T>, s': System<T>, tid: nat) {
    && CallOf(s', tid) == CallOf(s, tid)
    && s.history <= s'.history
    && (s.queue.closed ==> s'.queue.closed)
    && (s.queue.done ==> s'.queue.done)
  }

  lemma StepKeepsInv<T>(s: System<T>, a: Action<T>, capacity: nat)
    requires Inv(s, capacity) && Enabled(s, a)
    ensures Inv(Apply(s, a), capacity)
  {
    StepKeepsBuffer(s, a, capacity);
    StepKeepsClosing(s, a);
    StepKeepsHistory(s, a);
  }

  lemma TheirStepIsLater<T>(s: System<T>, a: Action<T>, tid: nat)
    requires Enabled(s, a) && a.tid != tid
    ensures Later(s, Apply(s, a), tid)
  {
  }

  /** The newest outcome. */
  ghost predicate Returns<T>(s: System<T>, o: Outcome<T>) {
    s.history != [] && s.history[|s.history| - 1] == o
  }

  /** What each result of `Enqueue` says about the queue at the return. */
  ghost predicate EnqueueReturned<T>(s: System<T>, item: T, r: EnqueueResult) {
    match r
    case Enqueued =>
      && Returns(s, Accepted(item, false, s.queue.closed))
      && s.queue.buffer != [] && s.queue.buffer[|s.queue.buffer| - 1] == item
    case QueueFull => Returns(s, RefusedFull(item, true))
    case EnqueueClosed => Returns(s, RefusedClosed(item, true)) && s.queue.closed
  }

  /** What each result of `Dequeue` says. */
  ghost predicate DequeueReturned<T>(s: System<T>, r: DequeueResult<T>) {
    match r
    case Item(x) => Returns(s, Dequeued(x))
    case Cancelled => Returns(s, DequeueCancelled(true))
    case DequeueClosed =>
      Returns(s, Outcome.DequeueClosed(true, 0)) && s.queue.closed && s.queue.buffer == []
  }

  /** The same call, but for its context. */
  ghost predicate SameCall<T>(c: Call<T>, d: Call<T>) {
    c.EnqueueSelect? && d.EnqueueSelect? && c.item == d.item && c.late == d.late
  }

  class Caller<T(!new)> {
    const tid: nat
    const capacity: nat
    const others: (nat, System<T>) -> seq<Action<T>>
    var system: System<T>
    var turn: nat

    ghost predicate Valid()
      reads this
    {
      Inv(system, capacity) && Lawful(others, tid)
    }

    constructor (tid: nat, capacity: nat, others: (nat, System<T>) -> seq<Action<T>>)
      requires Lawful(others, tid)
      ensures Valid() && this.tid == tid && this.capacity == capacity
      ensures system == Start(capacity)
    {
      this.tid, this.capacity, this.others, turn := tid, capacity, others, 0;
      system := Start(capacity);
    }

    /** One atomic step. */
    method Do(a: Action<T>)
      requires Valid() && Enabled(system, a)
      modifies this`system
      ensures Valid() && system == Apply(old(system), a)
    {
      StepKeepsInv(system, a, capacity);
      system := Apply(system, a);
    }

    /** The others move. */
    method Yield()
      requires Valid()
      modifies this
      ensures Valid() && Later(old(system), system, tid) && turn == old(turn) + 1
    {
      var actions := others(turn, system);
      turn := turn + 1;
      assert NoneBy(actions, tid);
      for i := 0 to |actions|
        invariant Valid() && Runs(system, actions[i..]) && Later(old(system), system, tid)
        invariant turn == old(turn) + 1
      {
        assert actions[i..][0] == actions[i] && actions[i..][1..] == actions[i + 1..];
        assert actions[i] in actions;
        TheirStepIsLater(system, actions[i], tid);
        Do(actions[i]);
      }
    }

    /** The call of `Enqueue` up to its closed check. */
    method Check(item: T) returns (closed: bool)
      requires Valid() && CallOf(system, tid).Outside?
      modifies this
      ensures Valid() && old(system.history) <= system.history
      ensures old(system.queue.closed) ==> closed
      ensures if closed then CallOf(system, tid).Outside? && EnqueueReturned(system, item, EnqueueClosed)
              else CallOf(system, tid).EnqueueSelect? && CallOf(system, tid).item == item
                   && !CallOf(system, tid).expired
      ensures turn >= old(turn)
    {
      Do(CallEnqueue(tid, item));
      Yield();
      closed := system.queue.closed;
      Do(LoadClosed(tid));
    }

    /** `Enqueue`. `patience` is how often the others may move before the context is done, if nothing else ends the
        call. An accepted item is the newest in the buffer and its call had begun on an open queue; "full" means an
        expired context, after all that patience; "closed" means closed; and a queue that is closed when the call
        begins always refuses it. */
    method Enqueue(item: T, patience: nat) returns (r: EnqueueResult)
      requires Valid() && CallOf(system, tid).Outside?
      modifies this
      ensures Valid() && CallOf(system, tid).Outside? && old(system.history) <= system.history
      ensures EnqueueReturned(system, item, r)
      ensures old(system.queue.closed) ==> r.EnqueueClosed?
      ensures r.QueueFull? ==> turn >= old(turn) + patience
    {
      var closed := Check(item);
      if closed {
        return EnqueueClosed;
      }
      AwaitSelect(patience);
      r := SelectEnqueue();
    }

    /** Blocked in the `select` of `Enqueue` until a case is ready. */
    method AwaitSelect(patience: nat)
      requires Valid() && CallOf(system, tid).EnqueueSelect? && !CallOf(system, tid).expired
      modifies this
      ensures Valid() && SameCall(CallOf(system, tid), old(CallOf(system, tid)))
      ensures CallOf(system, tid).expired ==> turn >= old(turn) + patience
      ensures old(system.history) <= system.history
      ensures system.queue.HasRoom() || CallOf(system, tid).expired || system.queue.done
    {
      var left: nat := patience;
      Yield();
      while !system.queue.HasRoom() && !CallOf(system, tid).expired && !system.queue.done
        invariant Valid() && SameCall(CallOf(system, tid), old(CallOf(system, tid)))
        invariant turn >= old(turn) + patience - left && (CallOf(system, tid).expired ==> left == 0)
        invariant old(system.history) <= system.history
        decreases !CallOf(system, tid).expired, left
      {
        if left == 0 {
          Do(Expire(tid));
        } else {
          left := left - 1;
          Yield();
        }
      }
    }

    /** Any ready case. */
    method SelectEnqueue() returns (r: EnqueueResult)
      requires Valid() && CallOf(system, tid).EnqueueSelect?
      requires system.queue.HasRoom() || CallOf(system, tid).expired || system.queue.done
      modifies this`system
      ensures Valid() && CallOf(system, tid).Outside? && old(system.history) <= system.history
      ensures EnqueueReturned(system, old(CallOf(system, tid)).item, r)
      ensures r.QueueFull? ==> old(CallOf(system, tid)).expired
    {
      if
      case system.queue.HasRoom() =>
        Do(Offer(tid));
        r := Enqueued;
      case CallOf(system, tid).expired =>
        Do(EnqueueExpired(tid));
        r := QueueFull;
      case system.queue.done =>
        Do(EnqueueSeesDone(tid));
        r := EnqueueClosed;
    }

    /** `Dequeue`: a non-blocking read, then the blocking `select`, then the drain after `done`. An item returned
        was the oldest one; a cancelled call had an expired context, after all its patience; "closed" means closed with
        nothing left. */
    method Dequeue(patience: nat) returns (r: DequeueResult<T>)
      requires Valid() && CallOf(system, tid).Outside?
      modifies this
      ensures Valid() && CallOf(system, tid).Outside? && old(system.history) <= system.history
      ensures DequeueReturned(system, r)
      ensures r.Cancelled? ==> turn >= old(turn) + patience
    {
      var found := TryDequeue();
      if found.Some? {
        return Item(found.value);
      }
      AwaitItem(patience);
      r := SelectDequeue();
    }

    /** The non-blocking read. */
    method TryDequeue() returns (found: Option<T>)
      requires Valid() && CallOf(system, tid).Outside?
      modifies this
      ensures Valid() && old(system.history) <= system.history && turn >= old(turn)
      ensures if found.Some? then CallOf(system, tid).Outside? && DequeueReturned(system, Item(found.value))
              else CallOf(system, tid).DequeueWait? && !CallOf(system, tid).expired
    {
      Do(CallDequeue(tid));
      Yield();
      if system.queue.HasItem() {
        found := Some(system.queue.Front());
        Do(Take(tid));
      } else {
        found := None;
        Do(TryMisses(tid));
      }
    }

    /** Blocked in the `select` of `Dequeue` until a case is ready. */
    method AwaitItem(patience: nat)
      requires Valid() && CallOf(system, tid).DequeueWait? && !CallOf(system, tid).expired
      modifies this
      ensures Valid() && CallOf(system, tid).DequeueWait? && old(system.history) <= system.history
      ensures CallOf(system, tid).expired ==> turn >= old(turn) + patience
      ensures system.queue.HasItem() || CallOf(system, tid).expired || system.queue.done
    {
      var left: nat := patience;
      Yield();
      while !system.queue.HasItem() && !CallOf(system, tid).expired && !system.queue.done
        invariant Valid() && CallOf(system, tid).DequeueWait? && old(system.history) <= system.history
        invariant turn >= old(turn) + patience - left && (CallOf(system, tid).expired ==> left == 0)
        decreases !CallOf(system, tid).expired, left
      {
        if left == 0 {
          Do(Expire(tid));
        } else {
          left := left - 1;
          Yield();
        }
      }
    }

    /** Any ready case. */
    method SelectDequeue() returns (r: DequeueResult<T>)
      requires Valid() && CallOf(system, tid).DequeueWait?
      requires system.queue.HasItem() || CallOf(system, tid).expired || system.queue.done
      modifies this
      ensures Valid() && CallOf(system, tid).Outside? && old(system.history) <= system.history
      ensures DequeueReturned(system, r)
      ensures r.Cancelled? ==> old(CallOf(system, tid)).expired && turn >= old(turn)
    {
      if
      case system.queue.HasItem() =>
        r := Item(system.queue.Front());
        Do(Take(tid));
      case CallOf(system, tid).expired =>
        Do(DequeueExpired(tid));
        r := Cancelled;
      case system.queue.done =>
        Do(DequeueSeesDone(tid));
        r := Drain();
    }

    /** The inner `select` after the close signal. */
    method Drain() returns (r: DequeueResult<T>)
      requires Valid() && CallOf(system, tid).DequeueDrain?
      modifies this
      ensures Valid() && CallOf(system, tid).Outside? && old(system.history) <= system.history
      ensures DequeueReturned(system, r) && !r.Cancelled?
    {
      Yield();
      if system.queue.HasItem() {
        r := Item(system.queue.Front());
        Do(Take(tid));
      } else {
        Do(DrainMisses(tid));
        r := DequeueResult.DequeueClosed;
      }
    }

    /** `Close`. The queue is closed afterwards, whoever won the swap; `done` is closed at most once in all. */
    method Close()
      requires Valid() && CallOf(system, tid).Outside?
      modifies this
      ensures Valid() && CallOf(system, tid).Outside? && old(system.history) <= system.history
      ensures system.queue.closed && system.doneClosed <= 1
    {
      Do(CallClose(tid));
      Yield();
      if system.queue.closed {
        Do(Swap(tid));
        return;
      }
      Do(Swap(tid));
      Yield();
      Do(Signal(tid));
    }
  }
}
