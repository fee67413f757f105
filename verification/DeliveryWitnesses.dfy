/**
 * Where the obvious statement about the Node client fails: for each exception of
 * a theorem, exactly when it happens, and a run in which it does.
 */
module DeliveryWitnesses {
  import opened Sequences
  import opened Grouping
  import opened Queues
  import opened Delivery
  import opened DeliveryRuns
  import opened DeliveryBounds
  import B = Breakers

  // ---------------------------------------------------------------------------
  // When a wakeup is lost
  // ---------------------------------------------------------------------------

  /** No timer of any kind is armed. */
  predicate Asleep(c: Client) { !c.interval && !c.retry && !c.coalesce }

  /** A live client that gives a slice up is left without a timer exactly where none was pending and its mode keeps none. */
  lemma GiveUpStrandsIff(cfg: Config, c: Client, at: int)
    requires cfg.Valid() && c.enabled && !c.closed && c.attempt >= cfg.maxRetries && c.phase.Sending? && c.phase.batches != []
    ensures Asleep(Next(cfg, Next(cfg, c, Reply(Transient, at)), Resume)) <==>
            !c.retry && !c.coalesce && (cfg.mode == Interval ==> c.breaker.failures + 1 >= cfg.threshold)
  {
    hide InFlight;
  }

  /** A flush in the window after a drain takes the retry timer: what is left is the interval, if the breaker let it be. */
  lemma FlushInWindowStrandsIff(cfg: Config, c: Client, t0: int, t1: int)
    requires cfg.Valid() && c.enabled && !c.closed && c.phase.Ended?
    ensures Asleep(Next(cfg, Next(cfg, c, FlushCall(t0, t1)), Resume)) <==>
            !c.coalesce && (cfg.mode == Interval ==> BreakerOpen(cfg, c))
  {
    hide Drain, B.IsOpen;
  }

  /** An entry recorded in that window arms nothing, whatever the mode and however severe: it waits for what was armed. */
  lemma RecordInWindowUnarmedIff(cfg: Config, c: Client, item: Queued, severity: Option<nat>, t0: int, t1: int)
    requires cfg.Valid() && c.enabled && !c.closed && c.phase.Ended?
    ensures var r := Next(cfg, Next(cfg, c, Record(item, severity, t0, t1)), Resume);
            && r.phase.Idle? && r.queue != [] && Last(r.queue) == item
            && (Asleep(r) <==> !c.retry && !c.coalesce && (cfg.mode == Interval ==> BreakerOpen(cfg, c)))
  {
    hide Drain, B.IsOpen;
  }

  // ---------------------------------------------------------------------------
  // Runs in which it is
  // ---------------------------------------------------------------------------

  /** Interval mode, a breaker that opens on the first failure. */
  function Fragile(retries: nat): Config
    requires retries <= 100
  {
    Config(10, 10, 1, retries, 1, 1, Interval, None, 1, 1000, false)
  }

  lemma Started(cfg: Config)
    requires cfg.Valid()
    ensures After(cfg, []) == Some(State(Initial(cfg), NOTHING_YET))
  {
  }

  /** The only entry of an idle interval client goes on the wire the moment it is recorded. */
  lemma FirstSend(retries: nat, x: Queued)
    requires retries <= 100
    ensures var cfg := Fragile(retries);
            && cfg.Valid() && After(cfg, [Record(x, None, 0, 0)]).Some?
            && After(cfg, [Record(x, None, 0, 0)]).value.c == Initial(cfg).(phase := Sending([[x]], 1))
  {
    hide Next, Remember;
    Started(Fragile(retries));
    Extended(Fragile(retries), [], Record(x, None, 0, 0));
    FirstSendStep(Fragile(retries), x);
    assert [] + [Record(x, None, 0, 0)] == [Record(x, None, 0, 0)];
  }

  lemma FirstSendStep(cfg: Config, x: Queued)
    requires cfg.Valid() && cfg.mode == Interval && cfg.flushAt == 1 && cfg.flushOnSeverity.None?
    ensures Next(cfg, Initial(cfg), Record(x, None, 0, 0)) == Initial(cfg).(phase := Sending([[x]], 1))
  {
    hide Batches, Drain, Newest, Overflow;
    var c := Initial(cfg).(queue := [x]);
    assert [] + [x] == [x];
    Roomy([x], cfg.capacity);
    LoneBatch(x, cfg.maxBatch);
    WholeSlice(cfg, c, 0);
  }

  ghost predicate Stranded(cfg: Config, c: Client, waiting: seq<Queued>) {
    c.phase.Idle? && c.enabled && !c.closed && c.queue == waiting && Asleep(c)
  }

  function GiveUpRun(x: Queued, y: Queued): seq<Event> {
    [Record(x, None, 0, 0)] + [Record(y, None, 1, 1)] + [Reply(Transient, 2)] + [Resume]
  }

  /**
   * After a give-up with the breaker open nothing is pending: the interval timer
   * is gone, no retry is armed, and an entry recorded meanwhile just waits.
   */
  lemma GiveUpStrands(x: Queued, y: Queued)
    ensures var cfg := Fragile(0);
            && cfg.Valid() && After(cfg, GiveUpRun(x, y)).Some?
            && Stranded(cfg, After(cfg, GiveUpRun(x, y)).value.c, [y])
            && BreakerOpen(cfg, After(cfg, GiveUpRun(x, y)).value.c)
  {
    hide After, Remember;
    var cfg, run := Fragile(0), [Record(x, None, 0, 0)];
    FirstSend(0, x);
    assert [] + [y] == [y] && Newest([y], 10) == [y];
    Extended(cfg, run, Record(y, None, 1, 1));
    Extended(cfg, run + [Record(y, None, 1, 1)], Reply(Transient, 2));
    Extended(cfg, run + [Record(y, None, 1, 1)] + [Reply(Transient, 2)], Resume);
  }

  function WindowRun(x: Queued): seq<Event> {
    [Record(x, None, 0, 0)] + [Reply(Transient, 1)] + [FlushCall(1, 1)] + [Resume]
  }

  /**
   * A flush that resumes between the end of a drain and its pump takes the retry
   * timer with it: the requeued entry is left with no timer at all.
   */
  lemma FlushInWindowStrands(x: Queued)
    ensures var cfg := Fragile(5);
            && cfg.Valid() && After(cfg, WindowRun(x)).Some?
            && Stranded(cfg, After(cfg, WindowRun(x)).value.c, [x])
            && BreakerOpen(cfg, After(cfg, WindowRun(x)).value.c)
  {
    hide After, Next, Remember;
    var cfg, run := Fragile(5), [Record(x, None, 0, 0)];
    FirstSend(5, x);
    var c := Initial(cfg).(phase := Sending([[x]], 1));
    Refused(cfg, c, x, 1);
    var failed := Next(cfg, c, Reply(Transient, 1));
    FlushedInWindow(cfg, failed);
    WindowResumes(cfg, failed.(retry := false, waiters := 1));
    Extended(cfg, run, Reply(Transient, 1));
    Extended(cfg, run + [Reply(Transient, 1)], FlushCall(1, 1));
    Extended(cfg, run + [Reply(Transient, 1)] + [FlushCall(1, 1)], Resume);
  }

  /** The only batch of a drain fails with nothing queued behind it. */
  lemma Refused(cfg: Config, c: Client, x: Queued, at: int)
    requires cfg.Valid() && c.phase.Sending? && c.phase.batches == [[x]] && c.queue == [] && c.attempt < cfg.maxRetries
    ensures Next(cfg, c, Reply(Transient, at)) ==
            c.(queue := [x], breaker := B.OnFailure(c.breaker, cfg.threshold, at), phase := Ended,
               failed := c.failed + 1, attempt := c.attempt + 1, retry := true)
  {
    hide Newest, Overflow, Flatten, Continue, B.OnFailure;
    FlattenOne([x]);
    Roomy([x], cfg.capacity);
    assert [x] + [] == [x];
  }

  lemma FlushedInWindow(cfg: Config, c: Client)
    requires cfg.Valid() && c.phase.Ended? && c.enabled
    ensures Next(cfg, c, FlushCall(1, 1)) == c.(retry := false, waiters := c.waiters + 1)
  {
    hide Drain;
  }

  function UnarmedRun(x: Queued, y: Queued): seq<Event> {
    [Record(x, None, 0, 0)] + [Fires(Window, 0, 0)] + [Reply(Ok, 0)] + [Record(y, None, 0, 0)] + [Resume]
  }

  /** In immediate mode an entry recorded in that window is left unarmed, with the breaker closed. */
  lemma RecordInWindowUnarmed(x: Queued, y: Queued)
    ensures var cfg := Fragile(5).(mode := Immediate);
            && cfg.Valid() && After(cfg, UnarmedRun(x, y)).Some?
            && Stranded(cfg, After(cfg, UnarmedRun(x, y)).value.c, [y])
            && !BreakerOpen(cfg, After(cfg, UnarmedRun(x, y)).value.c)
  {
    hide After, Next, Remember;
    var cfg, run := Fragile(5).(mode := Immediate), [Record(x, None, 0, 0)];
    var c1 := Initial(cfg).(queue := [x], coalesce := true);
    var c2 := Initial(cfg).(phase := Sending([[x]], 1));
    var c3 := Initial(cfg).(sent := 1, phase := Ended);
    Started(cfg);
    WindowOpens(cfg, x);
    WindowFires(cfg, x);
    LastOk(cfg, c2);
    WindowRecord(cfg, c3, y);
    WindowResumes(cfg, c3.(queue := [y]));
    Extended(cfg, [], Record(x, None, 0, 0));
    assert [] + [Record(x, None, 0, 0)] == run;
    Extended(cfg, run, Fires(Window, 0, 0));
    Extended(cfg, run + [Fires(Window, 0, 0)], Reply(Ok, 0));
    Extended(cfg, run + [Fires(Window, 0, 0)] + [Reply(Ok, 0)], Record(y, None, 0, 0));
    Extended(cfg, run + [Fires(Window, 0, 0)] + [Reply(Ok, 0)] + [Record(y, None, 0, 0)], Resume);
  }

  lemma WindowOpens(cfg: Config, x: Queued)
    requires cfg == Fragile(5).(mode := Immediate)
    ensures cfg.Valid() && Next(cfg, Initial(cfg), Record(x, None, 0, 0)) == Initial(cfg).(queue := [x], coalesce := true)
  {
    hide Pump, Newest, Overflow;
    assert [] + [x] == [x];
    Roomy([x], 10);
  }

  lemma WindowFires(cfg: Config, x: Queued)
    requires cfg == Fragile(5).(mode := Immediate)
    ensures cfg.Valid() && Next(cfg, Initial(cfg).(queue := [x], coalesce := true), Fires(Window, 0, 0)) ==
                           Initial(cfg).(phase := Sending([[x]], 1))
  {
    hide Batches, Drain;
    LoneBatch(x, cfg.maxBatch);
    WholeSlice(cfg, Initial(cfg).(queue := [x]), 0);
  }

  /** The last batch of a drain with nothing queued behind it. */
  lemma LastOk(cfg: Config, c: Client)
    requires cfg.Valid() && Calm(c) && c.queue == [] && c.phase.Sending? && |c.phase.batches| == 1
    ensures Next(cfg, c, Reply(Ok, 0)) == c.(sent := c.sent + |c.phase.batches[0]|, attempt := 0, phase := Ended)
  {
    hide InFlight;
  }

  lemma WindowRecord(cfg: Config, c: Client, y: Queued)
    requires cfg.Valid() && c.enabled && c.phase.Ended? && c.queue == []
    ensures Next(cfg, c, Record(y, None, 0, 0)) == c.(queue := [y])
  {
    hide Next;
    RecordPushes(cfg, State(c, NOTHING_YET), y);
    assert [] + [y] == [y];
  }

  lemma WindowResumes(cfg: Config, c: Client)
    requires cfg.Valid() && c.phase.Ended? && c.queue != []
    ensures Next(cfg, c, Resume) == SyncTimer(cfg, c.(phase := Idle))
  {
  }

  function OverrunRun(x: Queued, y: Queued): seq<Event> {
    [FlushCall(0, 0)] + [Record(x, None, 0, 0)] + [Record(y, None, 0, 0)] + [Resume] + [FlushCall(0, 0)] + [Reply(Ok, 0)]
  }

  /**
   * `maxRequestsPerFlush` is asked only between slices: here a drain makes a
   * second request where the option says 1.
   */
  lemma BudgetOverrun(x: Queued, y: Queued)
    requires x.group != y.group
    ensures var cfg := Fragile(5);
            && cfg.Valid() && cfg.maxRequestsPerFlush == 1 && After(cfg, OverrunRun(x, y)).Some?
            && After(cfg, OverrunRun(x, y)).value.c.phase == Sending([[y]], 2)
  {
    hide After, Next, Remember, Batches;
    var cfg, flush := Fragile(5), FlushCall(0, 0);
    var run := [flush] + [Record(x, None, 0, 0)] + [Record(y, None, 0, 0)];
    var c := Initial(cfg).(phase := Ended, waiters := 1);
    Started(cfg);
    EmptyFlush(cfg, Initial(cfg));
    Extended(cfg, [], flush);
    assert [] + [flush] == [flush];
    RecordPushes(cfg, State(c, NOTHING_YET), x);
    Extended(cfg, [flush], Record(x, None, 0, 0));
    assert [] + [x] == [x] && [x] + [y] == [x, y];
    RecordPushes(cfg, State(c.(queue := [x]), NOTHING_YET), y);
    Extended(cfg, [flush] + [Record(x, None, 0, 0)], Record(y, None, 0, 0));
    var idle := Next(cfg, c.(queue := [x, y]), Resume);
    Resumed(cfg, c.(queue := [x, y]));
    Extended(cfg, run, Resume);
    FullFlush(cfg, idle);
    Extended(cfg, run + [Resume], flush);
    TwoBatches(x, y, cfg.maxBatch);
    NextBatch(cfg, State(Next(cfg, idle, flush), NOTHING_YET));
    Extended(cfg, run + [Resume] + [flush], Reply(Ok, 0));
  }

  lemma TwoBatches(x: Queued, y: Queued, max: nat)
    requires 0 < max && x.group != y.group
    ensures Batches([x, y], max) == [[x], [y]] && [[x], [y]][1..] == [[y]]
  {
    hide Batches;
    SinglesAreBatches([x, y], max);
    assert Front([x, y]) == [x] && Front([x]) == [];
    assert Singles([x]) == [[x]];
  }

  // ---------------------------------------------------------------------------
  // Closing
  // ---------------------------------------------------------------------------

  /** A drain is out or resuming, or a timer will fire. */
  predicate Running(c: Client) { !c.phase.Idle? || !Asleep(c) }

  /** Released, and with nothing out, queued or armed. */
  predicate Silent(c: Client) { Inert(c) && c.closed }

  lemma SilentStep(cfg: Config, c: Client, e: Event)
    requires cfg.Valid() && Silent(c) && Possible(cfg, c, e)
    ensures Silent(Next(cfg, c, e))
  {
    hide Pump;
  }

  lemma {:induction false} SilentRun(cfg: Config, events: seq<Event>, more: seq<Event>)
    requires cfg.Valid() && After(cfg, events).Some? && Silent(After(cfg, events).value.c) && After(cfg, events + more).Some?
    ensures Silent(After(cfg, events + more).value.c)
    decreases |more|
  {
    hide Next, Remember, Silent;
    if more == [] {
      assert events + more == events;
    } else {
      assert Front(events + more) == events + Front(more);
      SilentRun(cfg, events, Front(more));
      SilentStep(cfg, After(cfg, events + Front(more)).value.c, Last(more));
    }
  }

  /** `close` from when it releases the client to when it resolves, with `mid` while the store is awaited. */
  function Closing(events: seq<Event>, mid: seq<Event>): seq<Event> { events + [CloseRelease] + mid + [CloseEnd] }

  /**
   * Whatever happens while the store is awaited, nothing of the client is left
   * running when `close` resolves, exactly where the flush before it had drained:
   * no drain out, and nothing queued.
   */
  lemma CloseStopsIff(cfg: Config, events: seq<Event>)
    requires cfg.Valid() && After(cfg, events).Some? && Possible(cfg, After(cfg, events).value.c, CloseRelease)
    ensures var c := After(cfg, events).value.c;
            (forall mid | After(cfg, Closing(events, mid)).Some? :: !Running(After(cfg, Closing(events, mid)).value.c)) <==>
            c.phase.Idle? && c.queue == []
  {
    hide After, Next, Remember, Running, Inv;
    var c := After(cfg, events).value.c;
    Extended(cfg, events, CloseRelease);
    if c.phase.Idle? && c.queue == [] {
      forall mid | After(cfg, Closing(events, mid)).Some?
        ensures !Running(After(cfg, Closing(events, mid)).value.c)
      {
        assert Closing(events, mid) == events + [CloseRelease] + (mid + [CloseEnd]);
        ReleasedSilent(cfg, c);
        SilentRun(cfg, events + [CloseRelease], mid + [CloseEnd]);
        SilentStops(After(cfg, Closing(events, mid)).value.c);
      }
    } else if c.phase.Idle? {
      var mid := FlushedClose(cfg, events);
    } else {
      var mid := UndrainedClose(cfg, events);
    }
  }

  lemma SilentStops(c: Client)
    requires Silent(c)
    ensures !Running(c)
  {
  }

  lemma ReleasedSilent(cfg: Config, c: Client)
    requires cfg.Valid() && Possible(cfg, c, CloseRelease) && c.phase.Idle? && c.queue == []
    ensures Silent(Next(cfg, c, CloseRelease))
  {
  }

  /** The last step of a close takes nothing that runs away. */
  lemma EndKeepsRunning(cfg: Config, c: Client)
    requires cfg.Valid() && !c.enabled && !c.over
    ensures Possible(cfg, c, CloseEnd) && (Running(c) ==> Running(Next(cfg, c, CloseEnd)))
  {
  }

  lemma ReleaseStep(cfg: Config, s: State)
    requires cfg.Valid() && Inv(cfg, s) && Possible(cfg, s.c, CloseRelease)
    ensures var r := Next(cfg, s.c, CloseRelease);
            !r.enabled && !r.over && r.phase == s.c.phase && r.queue == s.c.queue
  {
    hide Places, Counted, Probes, Awake;
  }

  /** With a drain out, or resuming, nothing need happen at all. */
  lemma UndrainedClose(cfg: Config, events: seq<Event>) returns (mid: seq<Event>)
    requires cfg.Valid() && After(cfg, events).Some? && Possible(cfg, After(cfg, events).value.c, CloseRelease)
    requires !After(cfg, events).value.c.phase.Idle?
    ensures After(cfg, Closing(events, mid)).Some? && Running(After(cfg, Closing(events, mid)).value.c)
  {
    hide After, Next, Remember, Inv;
    mid := [];
    var released := events + [CloseRelease];
    RunInv(cfg, events);
    Extended(cfg, events, CloseRelease);
    ReleaseStep(cfg, After(cfg, events).value);
    EndKeepsRunning(cfg, After(cfg, released).value.c);
    Extended(cfg, released, CloseEnd);
    assert Closing(events, mid) == released + [CloseEnd];
  }

  /** With something queued, a flush sets it going again. */
  lemma FlushedClose(cfg: Config, events: seq<Event>) returns (mid: seq<Event>)
    requires cfg.Valid() && After(cfg, events).Some? && Possible(cfg, After(cfg, events).value.c, CloseRelease)
    requires After(cfg, events).value.c.phase.Idle? && After(cfg, events).value.c.queue != []
    ensures After(cfg, Closing(events, mid)).Some? && Running(After(cfg, Closing(events, mid)).value.c)
  {
    hide After, Next, Remember, Running, Inv;
    mid := [FlushCall(0, 0)];
    var released := events + [CloseRelease];
    RunInv(cfg, events);
    Extended(cfg, events, CloseRelease);
    ReleaseStep(cfg, After(cfg, events).value);
    FlushSetsGoing(cfg, After(cfg, released).value.c);
    Extended(cfg, released, FlushCall(0, 0));
    EndKeepsRunning(cfg, After(cfg, released + mid).value.c);
    Extended(cfg, released + mid, CloseEnd);
  }

  lemma FlushSetsGoing(cfg: Config, c: Client)
    requires cfg.Valid() && !c.enabled && !c.over && c.phase.Idle? && c.queue != []
    ensures var f := Next(cfg, c, FlushCall(0, 0));
            Running(f) && !f.enabled && !f.over
  {
    hide Pump, Bodies, Budgeted, Licensed;
    PumpCases(cfg, c.(retry := false), 0, 0);
  }

  /** And then nothing ever runs again, whatever is called. */
  lemma {:induction false} ClosedIsFinal(cfg: Config, events: seq<Event>, more: seq<Event>)
    requires cfg.Valid() && After(cfg, events).Some? && After(cfg, events + more).Some?
    requires var c := After(cfg, events).value.c; c.over && c.queue == [] && !Running(c)
    ensures After(cfg, events + more).value.c == After(cfg, events).value.c
    decreases |more|
  {
    hide Next, Remember, Inv, Running;
    if more == [] {
      assert events + more == events;
    } else {
      assert Front(events + more) == events + Front(more);
      ClosedIsFinal(cfg, events, Front(more));
      RunInv(cfg, events);
      ClosedStep(cfg, After(cfg, events).value, Last(more));
    }
  }

  lemma ClosedStep(cfg: Config, s: State, e: Event)
    requires cfg.Valid() && Inv(cfg, s) && s.c.over && s.c.queue == [] && !Running(s.c) && Possible(cfg, s.c, e)
    ensures Next(cfg, s.c, e) == s.c
  {
    hide Places, Counted, Probes, Awake, Pump;
  }

  function LeftRunningRun(x: Queued): seq<Event> {
    [Record(x, None, 0, 0)] + [CloseBegin] + [CloseRelease] + [CloseEnd] + [Reply(Transient, 1)]
  }

  /** A request that fails after `close` has resolved requeues its entries and arms a retry. */
  lemma CloseLeavesRunning(x: Queued)
    ensures var cfg := Fragile(5);
            && cfg.Valid() && After(cfg, LeftRunningRun(x)).Some?
            && var c := After(cfg, LeftRunningRun(x)).value.c; c.over && c.retry && c.queue == [x]
  {
    hide After, Next, Remember;
    var cfg, run := Fragile(5), [Record(x, None, 0, 0)];
    FirstSend(5, x);
    var c := Initial(cfg).(phase := Sending([[x]], 1), closed := true);
    Closes(cfg, c.(closed := false));
    Refused(cfg, c.(interval := false, enabled := false, over := true), x, 1);
    Extended(cfg, run, CloseBegin);
    Extended(cfg, run + [CloseBegin], CloseRelease);
    Extended(cfg, run + [CloseBegin] + [CloseRelease], CloseEnd);
    Extended(cfg, run + [CloseBegin] + [CloseRelease] + [CloseEnd], Reply(Transient, 1));
  }

  /** The steps of a close that leaves a drain out and nothing queued. */
  lemma Closes(cfg: Config, c: Client)
    requires cfg.Valid() && !c.closed && c.enabled && c.phase.Sending? && c.queue == []
    ensures var begun := c.(closed := true);
            var released := begun.(interval := false, retry := false, coalesce := false, enabled := false);
            && Next(cfg, c, CloseBegin) == begun && Next(cfg, begun, CloseRelease) == released
            && (!c.over ==> Next(cfg, released, CloseEnd) == released.(over := true))
  {
  }

  /** `close` stops recording only once its last flush is over: until then an entry is still queued. */
  lemma ClosingStillQueues(cfg: Config, c: Client, y: Queued, severity: Option<nat>, t0: int, t1: int)
    requires cfg.Valid() && c.closed && c.enabled
    ensures multiset(Held(Next(cfg, c, Record(y, severity, t0, t1)))) ==
            multiset(InFlight(c)) + multiset(Newest(c.queue + [y], cfg.capacity))
    ensures y in Held(Next(cfg, c, Record(y, severity, t0, t1)))
  {
    hide Schedule, Flatten, Same;
    var p := Pushed(cfg, c, y);
    ScheduledLine(cfg, p, severity, t0, t1);
    SameContents(Held(Schedule(cfg, p, severity, t0, t1)), Held(p));
    assert multiset(Held(p)) == multiset(InFlight(c)) + multiset(p.queue);
    assert Last(p.queue) == y;
    assert y in multiset(Held(p));
  }
}
