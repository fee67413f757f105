/**
 * The Node client between two awaits. `sendBatch` is the only suspension point
 * of a drain, so the life of a client is a sequence of the atomic segments below
 * interleaved in any order its timers, callers and replies produce.
 */
module Delivery {
  import opened Sequences
  import opened Attributes
  import opened Grouping
  import opened Queues
  import B = Breakers
  import Edge

  datatype Mode = Immediate | Interval | Startup | Manual

  datatype Config = Config(
    capacity: nat, maxEntriesPerFlush: nat, maxRequestsPerFlush: nat, maxRetries: nat,
    maxBatch: nat, flushAt: nat, mode: Mode, flushOnSeverity: Option<nat>,
    threshold: nat, resetMs: nat, disk: bool)
  {
    /** The ranges the option clamps leave. */
    predicate Valid() {
      && 1 <= capacity <= 1000000 && 1 <= maxEntriesPerFlush <= 1000000
      && 1 <= maxRequestsPerFlush <= 4096 && maxRetries <= 100
      && 1 <= maxBatch <= 500 && 1 <= flushAt <= 1000000
      && 1 <= threshold <= 1000 && 100 <= resetMs <= 3600000
      && (mode == Startup ==> disk)
    }
  }

  /** What a queued entry carries besides its group: the resource, and the entry itself. */
  datatype Load = Load(resource: Option<Attrs>, wire: Edge.WireEntry)

  type Queued = Item<Load>

  /**
   * `pumping` is `!Idle?`. `Sending` is a drain suspended on the first of
   * `batches`, having made `requests` requests; `Ended` is the microtask between
   * the end of a drain and the resumption of its pump. `close` goes through
   * `closed`, `!enabled` and `over`.
   */
  datatype Phase = Idle | Sending(batches: seq<seq<Queued>>, requests: nat) | Ended

  datatype Client = Client(
    queue: seq<Queued>, dropped: nat, breaker: B.State, phase: Phase, attempt: nat,
    interval: bool, retry: bool, coalesce: bool, waiters: nat,
    enabled: bool, closed: bool, over: bool,
    sent: nat, failed: nat, abandoned: nat, restored: nat)

  datatype Outcome = Ok | Permanent | Transient

  datatype Timer = Every | Backoff | Window

  /** The clock readings of a segment: `t0` by `pump`, `t1` by `drain`, `at` after a reply. */
  datatype Event =
    | Record(item: Queued, severity: Option<nat>, t0: int, t1: int)
    | Fires(timer: Timer, t0: int, t1: int)
    | FlushCall(t0: int, t1: int)
    | FlushTimeout
    | Reply(outcome: Outcome, at: int)
    | Resume
    | Restore(items: seq<Queued>, t0: int, t1: int)
    | CloseBegin
    | CloseRelease
    | CloseEnd

  function Initial(cfg: Config): Client {
    Client([], 0, B.CLOSED, Idle, 0, cfg.mode == Interval, false, false, 0, true, false, false, 0, 0, 0, 0)
  }

  /** A client its configuration disables: no timer, and no disk read. */
  function Disabled(cfg: Config): Client { Initial(cfg).(interval := false, enabled := false) }

  function InFlight(c: Client): seq<Queued> {
    if c.phase.Sending? then Flatten(c.phase.batches) else []
  }

  /** In the order they would go out: what is in flight, then what is queued. */
  function Held(c: Client): seq<Queued> { InFlight(c) + c.queue }

  predicate BreakerOpen(cfg: Config, c: Client) { B.IsOpen(c.breaker, cfg.threshold) }

  // ---------------------------------------------------------------------------
  // The segments
  // ---------------------------------------------------------------------------

  /** The head of the drain loop, up to the request it suspends on. */
  function Drain(cfg: Config, c: Client, requests: nat, now: int): (r: Client)
    requires cfg.Valid()
    ensures r == c.(breaker := r.breaker, queue := r.queue, phase := r.phase, retry := r.retry)
  {
    if c.queue == [] then c.(phase := Ended)
    else if requests >= cfg.maxRequestsPerFlush then c.(retry := true, phase := Ended)
    else
      var (ok, breaker) := B.Allow(c.breaker, cfg.threshold, cfg.resetMs, now);
      if !ok then c.(retry := true, phase := Ended)
      else
        c.(breaker := breaker,
           queue := Rest(c.queue, cfg.maxEntriesPerFlush),
           phase := Sending(Batches(Take(c.queue, cfg.maxEntriesPerFlush), cfg.maxBatch), requests + 1))
  }

  function Pump(cfg: Config, c: Client, t0: int, t1: int): (r: Client)
    requires cfg.Valid()
    ensures r == c.(breaker := r.breaker, queue := r.queue, phase := r.phase, retry := r.retry)
  {
    if !c.phase.Idle? then c
    else if B.RetryAfter(c.breaker, cfg.threshold, cfg.resetMs, t0) > 0 then c.(retry := true)
    else Drain(cfg, c, 0, t1)
  }

  /** After a batch that needs no more attention: the next of the slice, or the loop head again. */
  function Continue(cfg: Config, c: Client, rest: seq<seq<Queued>>, requests: nat, now: int): (r: Client)
    requires cfg.Valid()
    ensures r == c.(breaker := r.breaker, queue := r.queue, phase := r.phase, retry := r.retry)
  {
    if rest != [] then c.(phase := Sending(rest, requests + 1)) else Drain(cfg, c, requests, now)
  }

  function Answered(c: Client, outcome: Outcome): Client
    requires c.phase.Sending? && c.phase.batches != []
  {
    var n := |c.phase.batches[0]|;
    if outcome == Ok then c.(sent := c.sent + n, attempt := 0, breaker := B.OnSuccess(c.breaker))
    else c.(failed := c.failed + 1, abandoned := c.abandoned + n, breaker := B.OnSuccess(c.breaker))
  }

  function Failing(cfg: Config, c: Client, at: int): Client {
    c.(failed := c.failed + 1, breaker := B.OnFailure(c.breaker, cfg.threshold, at), phase := Ended)
  }

  function GivenUp(c: Client, n: nat): Client { c.(abandoned := c.abandoned + n, attempt := 0) }

  function Requeued(cfg: Config, c: Client, pending: seq<Queued>): Client {
    c.(queue := Newest(pending + c.queue, cfg.capacity),
       dropped := c.dropped + Overflow(pending + c.queue, cfg.capacity),
       attempt := c.attempt + 1, retry := true)
  }

  /** What the failed batch and the rest of its slice become: given up, or back at the front. */
  function Failed(cfg: Config, c: Client, at: int): Client
    requires c.phase.Sending?
  {
    var pending := InFlight(c);
    if c.attempt >= cfg.maxRetries then GivenUp(Failing(cfg, c, at), |pending|)
    else Requeued(cfg, Failing(cfg, c, at), pending)
  }

  function OnReply(cfg: Config, c: Client, outcome: Outcome, at: int): Client
    requires cfg.Valid() && c.phase.Sending? && c.phase.batches != []
  {
    if outcome == Transient then Failed(cfg, c, at)
    else Continue(cfg, Answered(c, outcome), c.phase.batches[1..], c.phase.requests, at)
  }

  function Coalesce(c: Client): Client {
    if c.coalesce || !c.phase.Idle? then c else c.(coalesce := true)
  }

  function Schedule(cfg: Config, c: Client, severity: Option<nat>, t0: int, t1: int): (r: Client)
    requires cfg.Valid()
    ensures r == c.(breaker := r.breaker, queue := r.queue, phase := r.phase, retry := r.retry, coalesce := r.coalesce)
  {
    if cfg.flushOnSeverity.Some? && severity.Some? && severity.value >= cfg.flushOnSeverity.value
    then Pump(cfg, c, t0, t1)
    else
      match cfg.mode
      case Immediate => Coalesce(c)
      case Interval => if |c.queue| >= cfg.flushAt then Pump(cfg, c, t0, t1) else c
      case _ => c
  }

  function Pushed(cfg: Config, c: Client, item: Queued): Client {
    c.(queue := Newest(c.queue + [item], cfg.capacity), dropped := c.dropped + Overflow(c.queue + [item], cfg.capacity))
  }

  function OnRecord(cfg: Config, c: Client, item: Queued, severity: Option<nat>, t0: int, t1: int): Client
    requires cfg.Valid()
  {
    if !c.enabled then c else Schedule(cfg, Pushed(cfg, c, item), severity, t0, t1)
  }

  function SyncTimer(cfg: Config, c: Client): Client {
    c.(interval := c.enabled && !c.closed && cfg.mode == Interval && !BreakerOpen(cfg, c))
  }

  function Settle(c: Client): Client {
    if !c.phase.Idle? || c.queue != [] then c else c.(waiters := 0)
  }

  function OnResume(cfg: Config, c: Client): Client {
    Settle(SyncTimer(cfg, c.(phase := Idle)))
  }

  /** Whoever flushed waits, unless there is nothing to wait for. */
  function Waiting(c: Client): Client { if c.phase.Idle? && c.queue == [] then c else c.(waiters := c.waiters + 1) }

  function OnFlush(cfg: Config, c: Client, t0: int, t1: int): Client
    requires cfg.Valid()
  {
    if !c.enabled && c.queue == [] then c
    else Waiting(Pump(cfg, c.(retry := false), t0, t1))
  }

  function Unshifted(cfg: Config, c: Client, items: seq<Queued>): Client {
    c.(queue := Newest(items + c.queue, cfg.capacity), dropped := c.dropped + Overflow(items + c.queue, cfg.capacity),
       restored := c.restored + |items|)
  }

  function OnRestore(cfg: Config, c: Client, items: seq<Queued>, t0: int, t1: int): Client
    requires cfg.Valid()
  {
    if c.closed || items == [] then c
    else
      var r := Unshifted(cfg, c, items);
      match cfg.mode
      case Startup => Pump(cfg, r, t0, t1)
      case Immediate => Coalesce(r)
      case Interval => if |r.queue| >= cfg.flushAt then Pump(cfg, r, t0, t1) else r
      case Manual => r
  }

  /** Timers released, and the queue handed to the store, which is awaited. */
  function OnCloseRelease(c: Client): Client {
    c.(interval := false, retry := false, coalesce := false, enabled := false)
  }

  /** The queue emptied. A drain still waiting for its reply is not stopped, nor is a retry it has armed since. */
  function OnCloseEnd(cfg: Config, c: Client): Client {
    Settle(c.(queue := [], over := true, abandoned := if cfg.disk then c.abandoned else c.abandoned + |c.queue|))
  }

  predicate Armed(c: Client, timer: Timer) {
    match timer
    case Every => c.interval
    case Backoff => c.retry
    case Window => c.coalesce
  }

  /** A timeout is spent when it fires; an interval is not. */
  function Disarmed(c: Client, timer: Timer): Client {
    match timer
    case Every => c
    case Backoff => c.(retry := false)
    case Window => c.(coalesce := false)
  }

  predicate Possible(cfg: Config, c: Client, e: Event) {
    match e
    // Timers are macrotasks: none fires in the microtask window of `Ended`.
    case Fires(timer, _, _) => Armed(c, timer) && !c.phase.Ended?
    case FlushTimeout => c.waiters > 0 && !c.phase.Ended?
    case Reply(_, _) => c.phase.Sending? && c.phase.batches != []
    case Resume => c.phase.Ended?
    case Restore(_, _, _) => cfg.disk
    case CloseBegin => !c.closed
    case CloseRelease => c.closed && c.enabled
    case CloseEnd => !c.enabled && !c.over
    case _ => true
  }

  function Next(cfg: Config, c: Client, e: Event): Client
    requires cfg.Valid() && Possible(cfg, c, e)
  {
    match e
    case Record(item, severity, t0, t1) => OnRecord(cfg, c, item, severity, t0, t1)
    case Fires(timer, t0, t1) => Pump(cfg, Disarmed(c, timer), t0, t1)
    case FlushCall(t0, t1) => OnFlush(cfg, c, t0, t1)
    case FlushTimeout => c.(waiters := c.waiters - 1)
    case Reply(outcome, at) => OnReply(cfg, c, outcome, at)
    case Resume => OnResume(cfg, c)
    case Restore(items, t0, t1) => OnRestore(cfg, c, items, t0, t1)
    case CloseBegin => c.(closed := true)
    case CloseRelease => OnCloseRelease(c)
    case CloseEnd => OnCloseEnd(cfg, c)
  }

  // ---------------------------------------------------------------------------
  // What has happened so far
  // ---------------------------------------------------------------------------

  /** A request as it went out: when, whether the breaker was open, and the failure before it. */
  datatype Request = Request(at: int, open: bool, lastFailure: int)

  /**
   * Where every entry that ever entered the queue has gone, and every request
   * made. `gaveUp`: the last reply exhausted the retries. `cutOff`: a flush took
   * the retry timer in the window after a drain, and nothing has armed it since.
   * `unarmed`: an entry arrived in that window, and nothing has been armed since.
   */
  datatype History = History(
    recorded: seq<Queued>, restored: seq<Queued>, sent: seq<Queued>, abandoned: seq<Queued>,
    lost: seq<Queued>, kept: seq<Queued>, requests: seq<Request>, lastFailure: int, clock: int,
    monotone: bool, gaveUp: bool, cutOff: bool, unarmed: bool)

  const NOTHING_YET := History([], [], [], [], [], [], [], 0, 0, true, false, false, false)

  function Excess(cfg: Config, s: seq<Queued>): seq<Queued> { s[..Overflow(s, cfg.capacity)] }

  /** The readings an event takes of the clock, first to last. */
  function Times(e: Event): (int, int) {
    match e
    case Record(_, _, t0, t1) => (t0, t1)
    case Fires(_, t0, t1) => (t0, t1)
    case FlushCall(t0, t1) => (t0, t1)
    case Reply(_, at) => (at, at)
    case Restore(_, t0, t1) => (t0, t1)
    case _ => (0, 0)
  }

  predicate ReadsClock(e: Event) { !(e.FlushTimeout? || e.Resume? || e.CloseBegin? || e.CloseRelease? || e.CloseEnd?) }

  /** A step that ends suspended on a request it did not start with has put one on the wire. */
  predicate Emits(c: Client, e: Event, c': Client) {
    c'.phase.Sending? && (e.Reply? || !c.phase.Sending?)
  }

  /** Where the entries go in one event. */
  function Moved(cfg: Config, h: History, c: Client, e: Event): History
    requires cfg.Valid() && Possible(cfg, c, e)
  {
    match e
    case Record(item, _, _, _) =>
      if !c.enabled then h
      else h.(recorded := h.recorded + [item], lost := h.lost + Excess(cfg, c.queue + [item]))
    case Reply(Ok, _) => h.(sent := h.sent + c.phase.batches[0], gaveUp := false)
    case Reply(Permanent, _) => h.(abandoned := h.abandoned + c.phase.batches[0], gaveUp := false)
    case Reply(Transient, at) =>
      if c.attempt >= cfg.maxRetries
      then h.(abandoned := h.abandoned + InFlight(c), lastFailure := at, gaveUp := true)
      else h.(lost := h.lost + Excess(cfg, Held(c)), lastFailure := at, gaveUp := false)
    case Restore(items, _, _) =>
      if c.closed || items == [] then h
      else h.(restored := h.restored + items, lost := h.lost + Excess(cfg, items + c.queue))
    case CloseEnd => if cfg.disk then h.(kept := h.kept + c.queue) else h.(abandoned := h.abandoned + c.queue)
    case _ => h
  }

  /** The requests, the clock and the flags after an event that led from c to c'. */
  function Stamped(cfg: Config, h: History, c: Client, e: Event, c': Client): History {
    h.(requests := if Emits(c, e, c')
                   then h.requests + [Request(Times(e).1, BreakerOpen(cfg, c'), h.lastFailure)] else h.requests,
       clock := if ReadsClock(e) then Times(e).1 else h.clock,
       monotone := h.monotone && (ReadsClock(e) ==> h.clock <= Times(e).0 <= Times(e).1),
       cutOff := if e.FlushCall? && c.phase.Ended? then h.cutOff || c.retry
                 else h.cutOff && !c'.retry && !e.Reply?,
       unarmed := if (e.Record? || e.Restore?) && c.phase.Ended? then true
                  else h.unarmed && !c'.retry && !c'.coalesce && !e.Reply?)
  }

  function Remember(cfg: Config, h: History, c: Client, e: Event): History
    requires cfg.Valid() && Possible(cfg, c, e)
  {
    Stamped(cfg, Moved(cfg, h, c, e), c, e, Next(cfg, c, e))
  }
}
