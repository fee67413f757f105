/**
 * The Node client as the object it is: a queue, a breaker, three timer slots, the
 * sender flag and the counters, updated in place. Each method is one atomic
 * segment and is proved to do what the corresponding function of `Delivery` says.
 */
module NodeClient {
  import opened Sequences
  import opened Grouping
  import opened Delivery
  import opened Queues
  import DR = DeliveryRuns
  import B = Breakers

  class Firstrun {
    const cfg: Config
    const queue: BoundedQueue<Queued>
    const breaker: B.Breaker

    /** `pumping`, and the locals of a drain suspended on a request. */
    var phase: Phase
    var attempt: nat
    var timer: bool
    var retryTimer: bool
    var coalesceTimer: bool
    var waiters: nat
    var enabled: bool
    var closed: bool
    /** `close` has emptied the queue. */
    var over: bool
    var sent: nat
    var failedRequests: nat
    var abandoned: nat
    var restored: nat

    ghost predicate Valid()
      reads this, queue, breaker
    {
      && cfg.Valid() && queue.Valid() && queue.capacity == cfg.capacity
      && breaker.threshold == cfg.threshold && breaker.resetMs == cfg.resetMs
      && (phase.Sending? ==> phase.batches != [])
    }

    ghost function Model(): Client
      reads this, queue, breaker
      requires queue.Valid()
    {
      Client(queue.Contents(), queue.droppedCount, breaker.Model(), phase, attempt,
             timer, retryTimer, coalesceTimer, waiters, enabled, closed, over,
             sent, failedRequests, abandoned, restored)
    }

    constructor (cfg: Config, enabled: bool)
      requires cfg.Valid()
      ensures Valid() && Model() == (if enabled then Initial(cfg) else Disabled(cfg)) && this.cfg == cfg && fresh(queue) && fresh(breaker)
    {
      this.cfg := cfg;
      queue := new BoundedQueue(cfg.capacity);
      breaker := new B.Breaker(cfg.threshold, cfg.resetMs);
      phase, attempt, waiters := Idle, 0, 0;
      timer, retryTimer, coalesceTimer := enabled && cfg.mode == Interval, false, false;
      this.enabled, closed, over := enabled, false, false;
      sent, failedRequests, abandoned, restored := 0, 0, 0, 0;
    }

    method SyncTimer()
      requires Valid()
      modifies this`timer
      ensures Valid() && Model() == Delivery.SyncTimer(cfg, old(Model()))
    {
      var wanted := enabled && !closed && cfg.mode == Interval && !breaker.Open();
      if wanted && !timer {
        timer := true;
      } else if !wanted && timer {
        timer := false;
      }
    }

    method ScheduleCoalesced()
      requires Valid()
      modifies this`coalesceTimer
      ensures Valid() && Model() == Coalesce(old(Model()))
    {
      if coalesceTimer || !phase.Idle? { return; }
      coalesceTimer := true;
    }

    method SettleWaiters()
      requires Valid()
      modifies this`waiters
      ensures Valid() && Model() == Settle(old(Model()))
    {
      if !phase.Idle? || queue.Size() > 0 { return; }
      waiters := 0;
    }

    /** From the head of the drain loop to the next request, or to its end. */
    method DrainLoop(requests: nat, now: int)
      requires Valid()
      modifies this`phase, this`retryTimer, queue, breaker
      ensures Valid() && Model() == Drain(cfg, old(Model()), requests, now)
    {
      hide Batches, Flatten;
      if queue.Size() == 0 {
        phase := Ended;
        return;
      }
      if requests >= cfg.maxRequestsPerFlush {
        retryTimer := true;
        phase := Ended;
        return;
      }
      var ok := breaker.Ask(now);
      if !ok {
        retryTimer := true;
        phase := Ended;
        return;
      }
      var slice := queue.TakeFront(cfg.maxEntriesPerFlush);
      var batches := GroupIntoBatches(slice, cfg.maxBatch);
      BatchesProper(slice, cfg.maxBatch);
      phase := Sending(batches, requests + 1);
    }

    /** Starts a drain unless one is going or the breaker wants a wait first. */
    method Pump(t0: int, t1: int)
      requires Valid()
      modifies this`phase, this`retryTimer, queue, breaker
      ensures Valid() && Model() == Delivery.Pump(cfg, old(Model()), t0, t1)
    {
      hide Drain;
      if !phase.Idle? { return; }
      var wait := breaker.Wait(t0);
      if wait > 0 {
        retryTimer := true;
        return;
      }
      DrainLoop(0, t1);
    }

    /** The rest of the loop body once a request has its outcome. */
    method OnReply(outcome: Outcome, at: int)
      requires Valid() && phase.Sending?
      modifies this, queue, breaker
      ensures Valid() && Model() == Delivery.OnReply(cfg, old(Model()), outcome, at)
    {
      hide Drain, Flatten, Answered, Failed;
      var batches, requests := phase.batches, phase.requests;
      if outcome == Transient {
        GiveUpOrRequeue(at);
        return;
      }
      Count(outcome);
      if batches[1..] != [] {
        phase := Sending(batches[1..], requests + 1);
      } else {
        DrainLoop(requests, at);
      }
    }

    /** A batch the server took or refused for good: either way it answered. */
    method Count(outcome: Outcome)
      requires Valid() && phase.Sending? && outcome != Transient
      modifies this`sent, this`attempt, this`failedRequests, this`abandoned, breaker
      ensures Valid() && Model() == Answered(old(Model()), outcome)
    {
      hide B.OnSuccess;
      if outcome == Ok {
        sent := sent + |phase.batches[0]|;
        attempt := 0;
      } else {
        failedRequests := failedRequests + 1;
        abandoned := abandoned + |phase.batches[0]|;
      }
      var _ := breaker.Succeed();
    }

    method GiveUpOrRequeue(at: int)
      requires Valid() && phase.Sending?
      modifies this, queue, breaker
      ensures Valid() && Model() == Failed(cfg, old(Model()), at)
    {
      hide Flatten, GivenUp, Requeued;
      var pending := Flatten(phase.batches);
      CountFailure(at);
      if attempt >= cfg.maxRetries { GiveUp(|pending|); } else { Requeue(pending); }
    }

    method GiveUp(n: nat)
      requires Valid()
      modifies this`abandoned, this`attempt
      ensures Valid() && Model() == GivenUp(old(Model()), n)
    {
      abandoned := abandoned + n;
      attempt := 0;
    }

    method Requeue(pending: seq<Queued>)
      requires Valid()
      modifies this`attempt, this`retryTimer, queue
      ensures Valid() && Model() == Requeued(cfg, old(Model()), pending)
    {
      hide Newest, Overflow;
      queue.Unshift(pending);
      attempt := attempt + 1;
      retryTimer := true;
    }

    method CountFailure(at: int)
      requires Valid() && phase.Sending?
      modifies this`failedRequests, this`phase, breaker
      ensures Valid() && Model() == Failing(cfg, old(Model()), at)
    {
      hide B.OnFailure;
      failedRequests := failedRequests + 1;
      var _ := breaker.Fail(at);
      phase := Ended;
    }

    /** `pump` resumes a microtask after its drain ended. */
    method Resume()
      requires Valid() && phase.Ended?
      modifies this`phase, this`timer, this`waiters
      ensures Valid() && Model() == OnResume(cfg, old(Model()))
    {
      phase := Idle;
      SyncTimer();
      SettleWaiters();
    }

    method Enqueue(item: Queued, severity: Option<nat>, t0: int, t1: int)
      requires Valid()
      modifies this`phase, this`retryTimer, this`coalesceTimer, queue, breaker
      ensures Valid() && Model() == OnRecord(cfg, old(Model()), item, severity, t0, t1)
    {
      hide Delivery.Pump;
      if !enabled { return; }
      queue.Push(item);
      if cfg.flushOnSeverity.Some? && severity.Some? && severity.value >= cfg.flushOnSeverity.value {
        Pump(t0, t1);
        return;
      }
      match cfg.mode
      case Immediate => ScheduleCoalesced();
      case Interval => if queue.Size() >= cfg.flushAt { Pump(t0, t1); }
      case Startup =>
      case Manual =>
    }

    method Flush(t0: int, t1: int)
      requires Valid()
      modifies this`phase, this`retryTimer, this`waiters, queue, breaker
      ensures Valid() && Model() == OnFlush(cfg, old(Model()), t0, t1)
    {
      hide Delivery.Pump, Waiting;
      if !enabled && queue.Size() == 0 { return; }
      ClearRetry();
      Pump(t0, t1);
      WaitDrain();
    }

    method ClearRetry()
      requires Valid()
      modifies this`retryTimer
      ensures Valid() && Model() == old(Model()).(retry := false)
    {
      retryTimer := false;
    }

    method WaitDrain()
      requires Valid()
      modifies this`waiters
      ensures Valid() && Model() == Waiting(old(Model()))
    {
      if phase.Idle? && queue.Size() == 0 { return; }
      waiters := waiters + 1;
    }

    /** The items read from disk take the front of the queue; whether that sends anything is the mode's choice. */
    method Restore(items: seq<Queued>, t0: int, t1: int)
      requires Valid()
      modifies this`phase, this`retryTimer, this`coalesceTimer, this`restored, queue, breaker
      ensures Valid() && Model() == OnRestore(cfg, old(Model()), items, t0, t1)
    {
      hide Delivery.Pump;
      if closed || |items| == 0 { return; }
      queue.Unshift(items);
      restored := restored + |items|;
      match cfg.mode
      case Startup => Pump(t0, t1);
      case Immediate => ScheduleCoalesced();
      case Interval => if queue.Size() >= cfg.flushAt { Pump(t0, t1); }
      case Manual =>
    }

    /** `close` once its flush is over: timers released, and what is left handed to the store. */
    method CloseRelease() returns (left: seq<Queued>)
      requires Valid()
      modifies this`timer, this`retryTimer, this`coalesceTimer, this`enabled
      ensures Valid() && Model() == OnCloseRelease(old(Model())) && left == Model().queue
    {
      timer := false;
      retryTimer := false;
      coalesceTimer := false;
      enabled := false;
      left := queue.Snapshot();
    }

    /** The end of `close`, once the store is done: what is left is abandoned or left to the disk. */
    method CloseEnd()
      requires Valid()
      modifies this`over, this`abandoned, this`waiters, queue
      ensures Valid() && Model() == OnCloseEnd(cfg, old(Model()))
    {
      hide Settle, BreakerOpen;
      over := true;
      var remaining := queue.Clear();
      if remaining > 0 && !cfg.disk {
        abandoned := abandoned + remaining;
      }
      SettleWaiters();
    }

    // -------------------------------------------------------------------------
    // Whole runs
    // -------------------------------------------------------------------------

    /** The interval elapses; the timer stays. */
    method IntervalFires(t0: int, t1: int)
      requires Valid() && timer
      modifies this`phase, this`retryTimer, queue, breaker
      ensures Valid() && Model() == Delivery.Pump(cfg, Disarmed(old(Model()), Every), t0, t1)
    {
      Pump(t0, t1);
    }

    method RetryFires(t0: int, t1: int)
      requires Valid() && retryTimer
      modifies this`phase, this`retryTimer, queue, breaker
      ensures Valid() && Model() == Delivery.Pump(cfg, Disarmed(old(Model()), Backoff), t0, t1)
    {
      hide Delivery.Pump;
      ClearRetry();
      Pump(t0, t1);
    }

    method CoalesceFires(t0: int, t1: int)
      requires Valid() && coalesceTimer
      modifies this`phase, this`retryTimer, this`coalesceTimer, queue, breaker
      ensures Valid() && Model() == Delivery.Pump(cfg, Disarmed(old(Model()), Window), t0, t1)
    {
      hide Delivery.Pump;
      coalesceTimer := false;
      assert Model() == Disarmed(old(Model()), Window);
      Pump(t0, t1);
    }

    method Fires(which: Timer, t0: int, t1: int)
      requires Valid() && Armed(Model(), which)
      modifies this`phase, this`retryTimer, this`coalesceTimer, queue, breaker
      ensures Valid() && Model() == Delivery.Pump(cfg, Disarmed(old(Model()), which), t0, t1)
    {
      hide Delivery.Pump, Disarmed;
      match which
      case Every => IntervalFires(t0, t1);
      case Backoff => RetryFires(t0, t1);
      case Window => CoalesceFires(t0, t1);
    }

    /** One event, as the call or the callback it is. */
    method Step(e: Event)
      requires Valid() && Possible(cfg, Model(), e)
      modifies this, queue, breaker
      ensures Valid() && Model() == Next(cfg, old(Model()), e)
    {
      hide Delivery.Pump, Disarmed, OnRecord, OnFlush, Delivery.OnReply, OnResume, OnRestore, OnCloseRelease, OnCloseEnd;
      match e
      case Record(item, severity, t0, t1) => Enqueue(item, severity, t0, t1);
      case Fires(which, t0, t1) => Fires(which, t0, t1);
      case FlushCall(t0, t1) => Flush(t0, t1);
      case FlushTimeout => waiters := waiters - 1;
      case Reply(outcome, at) => OnReply(outcome, at);
      case Resume => Resume();
      case Restore(items, t0, t1) => Restore(items, t0, t1);
      case CloseBegin => closed := true;
      case CloseRelease => var _ := CloseRelease();
      case CloseEnd => CloseEnd();
    }

    /** Any run of the object is a run of the model, so what holds of every run holds of it. */
    method Run(events: seq<Event>)
      requires Valid() && Model() == Initial(cfg) && DR.After(cfg, events).Some?
      modifies this, queue, breaker
      ensures Valid() && Model() == DR.After(cfg, events).value.c
    {
      hide Next, Possible, Initial;
      for i := 0 to |events|
        invariant Valid() && DR.After(cfg, events[..i]).Some? && Model() == DR.After(cfg, events[..i]).value.c
      {
        assert events == events[..i + 1] + events[i + 1..];
        DR.AfterPrefix(cfg, events[..i + 1], events[i + 1..]);
        assert Front(events[..i + 1]) == events[..i] && Last(events[..i + 1]) == events[i];
        Step(events[i]);
      }
      assert events[..|events|] == events;
    }
  }
}
