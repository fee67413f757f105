/** What every run of the Node client keeps, whatever the order of its segments. */
module DeliveryRuns {
  import opened Sequences
  import opened Grouping
  import opened Queues
  import opened Delivery
  import B = Breakers

  datatype State = State(c: Client, h: History)

  /** The client after a sequence of events, or None where one of them could not have happened. */
  function After(cfg: Config, events: seq<Event>): Option<State>
    requires cfg.Valid()
  {
    if events == [] then Some(State(Initial(cfg), NOTHING_YET))
    else
      var before := After(cfg, Front(events));
      var e := Last(events);
      if before.None? || !Possible(cfg, before.value.c, e) then None
      else Some(State(Next(cfg, before.value.c, e), Remember(cfg, before.value.h, before.value.c, e)))
  }

  /** What a run goes through are runs. */
  lemma {:induction false} AfterPrefix(cfg: Config, events: seq<Event>, more: seq<Event>)
    requires cfg.Valid() && After(cfg, events + more).Some?
    ensures After(cfg, events).Some?
    decreases |more|
  {
    if more == [] {
      assert events + more == events;
    } else {
      assert Front(events + more) == events + Front(more);
      AfterPrefix(cfg, events, Front(more));
    }
  }

  /** Some run ends here. */
  ghost predicate Reachable(cfg: Config, s: State)
    requires cfg.Valid()
  {
    exists events :: After(cfg, events) == Some(s)
  }

  lemma ReachesStart(cfg: Config)
    requires cfg.Valid()
    ensures Reachable(cfg, State(Initial(cfg), NOTHING_YET))
  {
    assert After(cfg, []) == Some(State(Initial(cfg), NOTHING_YET));
  }

  lemma Extended(cfg: Config, events: seq<Event>, e: Event)
    requires cfg.Valid() && After(cfg, events).Some? && Possible(cfg, After(cfg, events).value.c, e)
    ensures var s := After(cfg, events).value;
            After(cfg, events + [e]) == Some(State(Next(cfg, s.c, e), Remember(cfg, s.h, s.c, e)))
  {
    hide Next, Remember;
    assert Front(events + [e]) == events;
  }

  lemma Reaches(cfg: Config, s: State, e: Event)
    requires cfg.Valid() && Reachable(cfg, s) && Possible(cfg, s.c, e)
    ensures Reachable(cfg, State(Next(cfg, s.c, e), Remember(cfg, s.h, s.c, e)))
  {
    hide Next, Remember, After, Possible;
    var events :| After(cfg, events) == Some(s);
    Extended(cfg, events, e);
  }

  // ---------------------------------------------------------------------------
  // What a drain and a pump can do
  // ---------------------------------------------------------------------------

  /** A loop head: finished, deferred to the retry timer, or suspended on the first request of a slice. */
  ghost predicate Drained(cfg: Config, c: Client, requests: nat, now: int, d: Client) {
    || (d == c.(phase := Ended) && c.queue == [])
    || (d == c.(phase := Ended, retry := true) && c.queue != [])
    || (d == c.(phase := d.phase, queue := d.queue, breaker := d.breaker) && c.queue != [] && |d.queue| <= |c.queue|
        && d.phase.Sending? && Bodies(cfg, d.phase) && d.phase.requests == requests + 1
        && (|c.queue| <= cfg.capacity ==> Budgeted(cfg, d.phase))
        && Licensed(cfg, c.breaker, d.breaker, now))
  }

  /** A request may go out on a closed breaker, or as the one probe of a cooldown that has passed. */
  ghost predicate Licensed(cfg: Config, b: B.State, b': B.State, now: int) {
    if B.IsOpen(b, cfg.threshold)
    then !b.probing && b' == b.(probing := true) && b.openedAt + cfg.resetMs <= now
    else b' == b
  }

  /** Something is left to send and every body is proper. */
  ghost predicate Bodies(cfg: Config, p: Phase)
    requires p.Sending?
  {
    p.batches != [] && (forall b | b in p.batches :: ProperBatch(b, cfg.maxBatch)) && 1 <= p.requests
  }

  /** The most entries a slice can hold. */
  function SliceBound(cfg: Config): int { Min(cfg.maxEntriesPerFlush, cfg.capacity) }

  /** What is left of the slice fits what is left of the budget. */
  predicate Budgeted(cfg: Config, p: Phase)
    requires p.Sending?
  {
    p.requests + |p.batches| <= cfg.maxRequestsPerFlush + SliceBound(cfg)
  }

  lemma DrainCases(cfg: Config, c: Client, requests: nat, now: int)
    requires cfg.Valid()
    ensures Drained(cfg, c, requests, now, Drain(cfg, c, requests, now))
  {
    BatchesProper(Take(c.queue, cfg.maxEntriesPerFlush), cfg.maxBatch);
  }

  ghost predicate Pumped(cfg: Config, c: Client, now: int, p: Client) {
    if !c.phase.Idle? then p == c
    else (p == c.(retry := true) && BreakerOpen(cfg, c)) || Drained(cfg, c, 0, now, p)
  }

  lemma PumpCases(cfg: Config, c: Client, t0: int, t1: int)
    requires cfg.Valid()
    ensures Pumped(cfg, c, t1, Pump(cfg, c, t0, t1))
  {
    DrainCases(cfg, c, 0, t1);
  }

  // ---------------------------------------------------------------------------
  // The line: nothing moves inside a group
  // ---------------------------------------------------------------------------

  /** The same entries, in the same order within every group. */
  ghost predicate Same(s: seq<Queued>, t: seq<Queued>) { forall g :: OfGroup(s, g) == OfGroup(t, g) }

  lemma SameContents(s: seq<Queued>, t: seq<Queued>)
    requires Same(s, t)
    ensures multiset(s) == multiset(t)
  {
    forall x: Queued
      ensures multiset(s)[x] == multiset(t)[x]
    {
      OfGroupCount(s, x);
      OfGroupCount(t, x);
    }
    MultisetExtensional(multiset(s), multiset(t));
  }

  lemma SameBefore(s: seq<Queued>, t: seq<Queued>, b: seq<Queued>)
    requires Same(s, t)
    ensures Same(s + b, t + b)
  {
    forall g
      ensures OfGroup(s + b, g) == OfGroup(t + b, g)
    {
      OfGroupConcat(s, b, g);
      OfGroupConcat(t, b, g);
    }
  }

  lemma SameAfter(a: seq<Queued>, s: seq<Queued>, t: seq<Queued>)
    requires Same(s, t)
    ensures Same(a + s, a + t)
  {
    forall g
      ensures OfGroup(a + s, g) == OfGroup(a + t, g)
    {
      OfGroupConcat(a, s, g);
      OfGroupConcat(a, t, g);
    }
  }

  lemma BatchesSame(slice: seq<Queued>, max: nat)
    requires 0 < max
    ensures Same(Flatten(Batches(slice, max)), slice)
  {
    forall g
      ensures OfGroup(Flatten(Batches(slice, max)), g) == OfGroup(slice, g)
    {
      BatchesKeepGroupOrder(slice, max, g);
    }
  }

  lemma SliceLine(queue: seq<Queued>, n: nat, max: nat)
    requires 0 < max
    ensures Same(Flatten(Batches(Take(queue, n), max)) + Rest(queue, n), queue)
  {
    BatchesSame(Take(queue, n), max);
    SameBefore(Flatten(Batches(Take(queue, n), max)), Take(queue, n), Rest(queue, n));
    assert Take(queue, n) + Rest(queue, n) == queue;
  }

  lemma DrainLine(cfg: Config, c: Client, requests: nat, now: int)
    requires cfg.Valid()
    ensures Same(Held(Drain(cfg, c, requests, now)), c.queue)
  {
    hide Flatten, Batches, Same;
    SliceLine(c.queue, cfg.maxEntriesPerFlush, cfg.maxBatch);
    if !Drain(cfg, c, requests, now).phase.Sending? {
      assert Held(Drain(cfg, c, requests, now)) == c.queue;
      SameRefl(c.queue);
    }
  }

  lemma SameRefl(s: seq<Queued>)
    ensures Same(s, s)
  {
  }

  lemma PumpLine(cfg: Config, c: Client, t0: int, t1: int)
    requires cfg.Valid()
    ensures Same(Held(Pump(cfg, c, t0, t1)), Held(c))
  {
    if c.phase.Idle? {
      assert Held(c) == c.queue;
      DrainLine(cfg, c, 0, t1);
    }
  }

  /** An answered batch leaves the front of the line and nothing else moves. */
  lemma AnsweredLine(cfg: Config, c: Client, outcome: Outcome, at: int)
    requires cfg.Valid() && c.phase.Sending? && c.phase.batches != [] && outcome != Transient
    ensures Same(c.phase.batches[0] + Held(OnReply(cfg, c, outcome, at)), Held(c))
  {
    hide Drain, OnReply, Answered, Same;
    var first, rest, queue := c.phase.batches[0], c.phase.batches[1..], c.queue;
    var held := Held(OnReply(cfg, c, outcome, at));
    AnsweredNext(cfg, c, outcome, at);
    if rest == [] {
      DrainLine(cfg, Answered(c, outcome), c.phase.requests, at);
      assert Flatten(rest) + queue == queue;
    } else {
      SameRefl(Flatten(rest) + queue);
    }
    SameAfter(first, held, Flatten(rest) + queue);
    Assoc(first, Flatten(rest), queue);
  }

  /** What follows a batch that was answered. */
  lemma AnsweredNext(cfg: Config, c: Client, outcome: Outcome, at: int)
    requires cfg.Valid() && c.phase.Sending? && c.phase.batches != [] && outcome != Transient
    ensures var (a, rest) := (Answered(c, outcome), c.phase.batches[1..]);
            && a == c.(sent := a.sent, failed := a.failed, abandoned := a.abandoned, attempt := a.attempt, breaker := B.OnSuccess(c.breaker))
            && OnReply(cfg, c, outcome, at) == if rest != [] then a.(phase := Sending(rest, c.phase.requests + 1))
                                               else Drain(cfg, a, c.phase.requests, at)
  {
    hide Drain, Failed, B.OnSuccess;
  }

  lemma FailedLine(cfg: Config, c: Client, at: int)
    requires c.phase.Sending?
    ensures var gone := if c.attempt >= cfg.maxRetries then InFlight(c) else Excess(cfg, Held(c));
            Held(Failed(cfg, c, at)) == Failed(cfg, c, at).queue && gone + Failed(cfg, c, at).queue == Held(c)
  {
    hide Flatten, Newest, Overflow, B.OnFailure;
    CapSplits(cfg, Held(c));
    assert [] + Failed(cfg, c, at).queue == Failed(cfg, c, at).queue;
  }

  lemma ScheduledLine(cfg: Config, c: Client, severity: Option<nat>, t0: int, t1: int)
    requires cfg.Valid()
    ensures Same(Held(Schedule(cfg, c, severity, t0, t1)), Held(c))
  {
    hide Drain, Flatten;
    PumpLine(cfg, c, t0, t1);
  }

  lemma RestoredLine(cfg: Config, c: Client, items: seq<Queued>, t0: int, t1: int)
    requires cfg.Valid() && !c.closed && items != []
    ensures Same(Held(OnRestore(cfg, c, items, t0, t1)), Held(Unshifted(cfg, c, items)))
  {
    hide Drain, Flatten;
    PumpLine(cfg, Unshifted(cfg, c, items), t0, t1);
  }

  lemma FlushedLine(cfg: Config, c: Client, t0: int, t1: int)
    requires cfg.Valid()
    ensures Same(Held(OnFlush(cfg, c, t0, t1)), Held(c))
  {
    hide Drain, Flatten;
    PumpLine(cfg, c.(retry := false), t0, t1);
  }

  lemma FiredLine(cfg: Config, c: Client, timer: Timer, t0: int, t1: int)
    requires cfg.Valid()
    ensures Same(Held(Pump(cfg, Disarmed(c, timer), t0, t1)), Held(c))
  {
    hide Drain, Flatten;
    PumpLine(cfg, Disarmed(c, timer), t0, t1);
  }

  /** A cap splits a queue into what is lost and what stays, in order. */
  lemma CapSplits(cfg: Config, s: seq<Queued>)
    ensures Excess(cfg, s) + Newest(s, cfg.capacity) == s && |Excess(cfg, s)| == Overflow(s, cfg.capacity)
  {
  }

  // ---------------------------------------------------------------------------
  // Conservation and order
  // ---------------------------------------------------------------------------

  ghost function Entered(h: History): multiset<Queued> { multiset(h.recorded) + multiset(h.restored) }

  ghost function Gone(h: History): multiset<Queued> {
    multiset(h.sent) + multiset(h.abandoned) + multiset(h.lost) + multiset(h.kept)
  }

  /** Everything that came in is in exactly one place: the line, or one way out. */
  ghost predicate Conserved(h: History, line: seq<Queued>) { Entered(h) == multiset(line) + Gone(h) }

  /** Per group, what was sent and what will be is a subsequence of the order recorded. */
  ghost predicate InOrder(h: History, line: seq<Queued>) {
    forall g :: Subsequence(OfGroup(h.sent + line, g), OfGroup(h.recorded, g))
  }

  lemma SameKeepsOrder(h: History, h': History, line: seq<Queued>, line': seq<Queued>)
    requires InOrder(h, line) && h'.recorded == h.recorded && Same(h'.sent + line', h.sent + line)
    ensures InOrder(h', line')
  {
  }

  lemma LossKeepsOrder(h: History, a: seq<Queued>, cut: seq<Queued>, b: seq<Queued>)
    requires InOrder(h, a + cut + b)
    ensures InOrder(h, a + b)
  {
    hide OfGroup, Subsequence;
    assert h.sent + (a + b) == h.sent + a + b;
    assert h.sent + (a + cut + b) == h.sent + a + cut + b;
    forall g
      ensures Subsequence(OfGroup(h.sent + a + b, g), OfGroup(h.recorded, g))
    {
      OfGroupCut(h.sent + a, cut, b, g, OfGroup(h.recorded, g));
    }
  }

  lemma GrowOrder(line: seq<Queued>, recorded: seq<Queued>, item: Queued, g: string)
    requires Subsequence(OfGroup(line, g), OfGroup(recorded, g))
    ensures Subsequence(OfGroup(line + [item], g), OfGroup(recorded + [item], g))
  {
    OfGroupConcat(line, [item], g);
    OfGroupConcat(recorded, [item], g);
    SubsequenceAppend(OfGroup(line, g), OfGroup(recorded, g), OfGroup([item], g));
  }

  /** A recorded entry joins both ends of the line. */
  lemma LineGrows(h: History, line: seq<Queued>, item: Queued)
    ensures var h' := h.(recorded := h.recorded + [item]);
            && (Conserved(h, line) ==> Conserved(h', line + [item])) && (InOrder(h, line) ==> InOrder(h', line + [item]))
  {
    hide OfGroup, Subsequence;
    assert multiset(h.recorded + [item]) == multiset(h.recorded) + multiset([item]);
    assert multiset(line + [item]) == multiset(line) + multiset([item]);
    assert Entered(h.(recorded := h.recorded + [item])) == Entered(h) + multiset([item]);
    if InOrder(h, line) {
      forall g
        ensures Subsequence(OfGroup(h.sent + (line + [item]), g), OfGroup(h.recorded + [item], g))
      {
        assert h.sent + (line + [item]) == h.sent + line + [item];
        GrowOrder(h.sent + line, h.recorded, item, g);
      }
    }
  }

  /** An event that only rearranges across groups. */
  lemma LineSame(h: History, line: seq<Queued>, line': seq<Queued>)
    requires Same(line', line)
    ensures Conserved(h, line) ==> Conserved(h, line')
    ensures InOrder(h, line) ==> InOrder(h, line')
  {
    SameContents(line', line);
    SameAfter(h.sent, line', line);
    if InOrder(h, line) { SameKeepsOrder(h, h, line, line'); }
  }

  /** An event in which `cut` leaves the middle of the line for good. */
  lemma LineLoses(h: History, h': History, line: seq<Queued>, a: seq<Queued>, cut: seq<Queued>, b: seq<Queued>,
                  line': seq<Queued>)
    requires line == a + cut + b && Same(line', a + b)
    requires Entered(h') == Entered(h) && Gone(h') == Gone(h) + multiset(cut)
    requires h'.sent == h.sent && h'.recorded == h.recorded
    ensures Conserved(h, line) ==> Conserved(h', line')
    ensures InOrder(h, line) ==> InOrder(h', line')
  {
    SameContents(line', a + b);
    SameAfter(h.sent, line', a + b);
    if InOrder(h, line) {
      LossKeepsOrder(h, a, cut, b);
      SameKeepsOrder(h, h', a + b, line');
    }
  }

  /** A batch answered 2xx moves from the front of the line to the end of what was sent. */
  lemma LineSends(h: History, line: seq<Queued>, first: seq<Queued>, line': seq<Queued>)
    requires Same(first + line', line)
    ensures var h' := h.(sent := h.sent + first);
            && (Conserved(h, line) ==> Conserved(h', line')) && (InOrder(h, line) ==> InOrder(h', line'))
  {
    var h' := h.(sent := h.sent + first);
    SameContents(first + line', line);
    assert multiset(h'.sent) == multiset(h.sent) + multiset(first);
    SameAfter(h.sent, first + line', line);
    assert h'.sent + line' == h.sent + (first + line');
    if InOrder(h, line) { SameKeepsOrder(h, h', line, line'); }
  }

  /** The counters count the places. */
  ghost predicate Counted(c: Client, h: History) {
    c.sent == |h.sent| && c.abandoned == |h.abandoned| && c.dropped == |h.lost| && c.restored == |h.restored|
  }

  ghost predicate Places(cfg: Config, c: Client, h: History) {
    Conserved(h, Held(c)) && (!cfg.disk ==> InOrder(h, Held(c)))
  }

  lemma RecordPlaces(cfg: Config, c: Client, h: History, item: Queued, severity: Option<nat>, t0: int, t1: int)
    requires cfg.Valid() && Places(cfg, c, h) && c.enabled
    ensures Places(cfg, OnRecord(cfg, c, item, severity, t0, t1), Moved(cfg, h, c, Record(item, severity, t0, t1)))
  {
    hide Schedule, Flatten, InOrder, Same, Conserved;
    var p, c' := Pushed(cfg, c, item), OnRecord(cfg, c, item, severity, t0, t1);
    var cut, h1 := Excess(cfg, c.queue + [item]), h.(recorded := h.recorded + [item]);
    CapSplits(cfg, c.queue + [item]);
    ScheduledLine(cfg, p, severity, t0, t1);
    assert Held(c) + [item] == InFlight(c) + cut + p.queue;
    LineGrows(h, Held(c), item);
    LineLoses(h1, h1.(lost := h1.lost + cut), Held(c) + [item], InFlight(c), cut, p.queue, Held(c'));
  }

  lemma RestorePlaces(cfg: Config, c: Client, h: History, items: seq<Queued>, t0: int, t1: int)
    requires cfg.Valid() && Conserved(h, Held(c)) && cfg.disk && !c.closed && items != []
    ensures Conserved(Moved(cfg, h, c, Restore(items, t0, t1)), Held(OnRestore(cfg, c, items, t0, t1)))
  {
    hide OnRestore, Flatten, Same, Newest, Excess, Overflow, Conserved;
    var p, cut := Unshifted(cfg, c, items), Excess(cfg, items + c.queue);
    CapSplits(cfg, items + c.queue);
    RestoredLine(cfg, c, items, t0, t1);
    SameContents(Held(OnRestore(cfg, c, items, t0, t1)), Held(p));
    LineRestores(h, Held(c), InFlight(c), c.queue, items, cut, p.queue, Held(OnRestore(cfg, c, items, t0, t1)));
  }

  lemma LineRestores(h: History, line: seq<Queued>, flight: seq<Queued>, queue: seq<Queued>, items: seq<Queued>,
                     cut: seq<Queued>, kept: seq<Queued>, line': seq<Queued>)
    requires Conserved(h, line) && line == flight + queue && items + queue == cut + kept
    requires multiset(line') == multiset(flight + kept)
    ensures Conserved(h.(restored := h.restored + items, lost := h.lost + cut), line')
  {
    assert multiset(items + queue) == multiset(items) + multiset(queue);
    assert multiset(cut + kept) == multiset(cut) + multiset(kept);
    assert multiset(h.restored + items) == multiset(h.restored) + multiset(items);
    assert multiset(h.lost + cut) == multiset(h.lost) + multiset(cut);
    assert multiset(flight + kept) == multiset(flight) + multiset(kept);
    assert multiset(line) == multiset(flight) + multiset(queue);
    assert Entered(h.(restored := h.restored + items)) == Entered(h) + multiset(items);
    assert Gone(h.(lost := h.lost + cut)) == Gone(h) + multiset(cut);
    assert multiset(line') + multiset(cut) == multiset(flight) + (multiset(cut) + multiset(kept));
    assert multiset(line) + multiset(items) == multiset(flight) + (multiset(items) + multiset(queue));
    assert Entered(h) + multiset(items) == (multiset(line) + multiset(items)) + Gone(h);
    assert multiset(line') + (Gone(h) + multiset(cut)) == (multiset(line') + multiset(cut)) + Gone(h);
  }

  lemma AnsweredPlaces(cfg: Config, c: Client, h: History, outcome: Outcome, at: int)
    requires cfg.Valid() && Places(cfg, c, h) && c.phase.Sending? && c.phase.batches != [] && outcome != Transient
    ensures Places(cfg, OnReply(cfg, c, outcome, at), Moved(cfg, h, c, Reply(outcome, at)))
  {
    hide OnReply, Held, InOrder, Same, Conserved;
    var c', first := OnReply(cfg, c, outcome, at), c.phase.batches[0];
    AnsweredLine(cfg, c, outcome, at);
    if outcome == Ok {
      LineSends(h, Held(c), first, Held(c'));
      LineFlag(h.(sent := h.sent + first), false, Held(c'));
    } else {
      LineRejects(h, Held(c), first, Held(c'));
      LineFlag(h.(abandoned := h.abandoned + first), false, Held(c'));
    }
  }

  lemma LineFlag(h: History, gaveUp: bool, line: seq<Queued>)
    ensures Conserved(h, line) ==> Conserved(h.(gaveUp := gaveUp), line)
    ensures InOrder(h, line) ==> InOrder(h.(gaveUp := gaveUp), line)
  {
  }

  lemma LineRejects(h: History, line: seq<Queued>, first: seq<Queued>, line': seq<Queued>)
    requires Same(first + line', line)
    ensures var h' := h.(abandoned := h.abandoned + first);
            && (Conserved(h, line) ==> Conserved(h', line')) && (InOrder(h, line) ==> InOrder(h', line'))
  {
    hide OfGroup;
    LineSame(h, line, first + line');
    assert [] + first + line' == first + line' && [] + line' == line';
    SameRefl(line');
    LineLoses(h, h.(abandoned := h.abandoned + first), first + line', [], first, line', line');
  }

  lemma FailedPlaces(cfg: Config, c: Client, h: History, at: int)
    requires cfg.Valid() && Places(cfg, c, h) && c.phase.Sending? && c.phase.batches != []
    ensures Places(cfg, OnReply(cfg, c, Transient, at), Moved(cfg, h, c, Reply(Transient, at)))
  {
    hide Failed, Continue, InFlight, Excess, Held, InOrder, Same, Conserved, Moved, Entered, Gone;
    var line := Held(Failed(cfg, c, at));
    var cut := if c.attempt >= cfg.maxRetries then InFlight(c) else Excess(cfg, Held(c));
    FailedLine(cfg, c, at);
    MovedFailed(cfg, c, h, at);
    assert [] + cut + line == Held(c) && [] + line == line;
    SameRefl(line);
    LineLoses(h, Moved(cfg, h, c, Reply(Transient, at)), Held(c), [], cut, line, line);
  }

  lemma MovedFailed(cfg: Config, c: Client, h: History, at: int)
    requires cfg.Valid() && c.phase.Sending? && c.phase.batches != []
    ensures var h' := Moved(cfg, h, c, Reply(Transient, at));
            && h'.sent == h.sent && h'.recorded == h.recorded && Entered(h') == Entered(h)
            && Gone(h') == Gone(h) + multiset(if c.attempt >= cfg.maxRetries then InFlight(c) else Excess(cfg, Held(c)))
  {
    hide InFlight, Excess, Held;
    var went := if c.attempt >= cfg.maxRetries then InFlight(c) else Excess(cfg, Held(c));
    assert multiset(h.lost + went) == multiset(h.lost) + multiset(went);
    assert multiset(h.abandoned + went) == multiset(h.abandoned) + multiset(went);
  }

  lemma ClosePlaces(cfg: Config, c: Client, h: History)
    requires cfg.Valid() && Places(cfg, c, h) && Possible(cfg, c, CloseEnd)
    ensures Places(cfg, OnCloseEnd(cfg, c), Moved(cfg, h, c, CloseEnd))
  {
    hide Flatten, InOrder, Same, Conserved;
    var line := Held(OnCloseEnd(cfg, c));
    assert line == InFlight(c) + [];
    assert InFlight(c) + c.queue + [] == Held(c);
    SameRefl(line);
    LineLoses(h, Moved(cfg, h, c, CloseEnd), Held(c), InFlight(c), c.queue, [], line);
  }

  lemma QuietPlaces(cfg: Config, c: Client, h: History, c': Client)
    requires Places(cfg, c, h) && Same(Held(c'), Held(c))
    ensures Places(cfg, c', h)
  {
    hide Held, InOrder, Same, Conserved;
    LineSame(h, Held(c), Held(c'));
  }

  lemma StepPlaces(cfg: Config, c: Client, h: History, e: Event)
    requires cfg.Valid() && Possible(cfg, c, e) && Places(cfg, c, h)
    ensures Places(cfg, Next(cfg, c, e), Moved(cfg, h, c, e))
  {
    hide Pump, InOrder, Conserved, Held, Same, OnRestore, OnRecord, OnReply, OnCloseEnd, OnFlush;
    match e
    case Record(item, severity, t0, t1) =>
      if c.enabled { RecordPlaces(cfg, c, h, item, severity, t0, t1); }
      else { OnDisabled(cfg, c, item, severity, t0, t1); }
    case Restore(items, t0, t1) =>
      if c.closed || items == [] { OnNothing(cfg, c, items, t0, t1); }
      else { RestorePlaces(cfg, c, h, items, t0, t1); }
    case Reply(outcome, at) =>
      if outcome == Transient { FailedPlaces(cfg, c, h, at); } else { AnsweredPlaces(cfg, c, h, outcome, at); }
    case CloseEnd => ClosePlaces(cfg, c, h);
    case Fires(timer, t0, t1) =>
      FiredLine(cfg, c, timer, t0, t1);
      QuietPlaces(cfg, c, h, Next(cfg, c, e));
    case FlushCall(t0, t1) =>
      FlushedLine(cfg, c, t0, t1);
      QuietPlaces(cfg, c, h, Next(cfg, c, e));
    case _ =>
      QuietLine(cfg, c, e);
      SameRefl(Held(c));
      QuietPlaces(cfg, c, h, Next(cfg, c, e));
  }

  lemma QuietLine(cfg: Config, c: Client, e: Event)
    requires cfg.Valid() && Possible(cfg, c, e) && (e.FlushTimeout? || e.Resume? || e.CloseBegin? || e.CloseRelease?)
    ensures Held(Next(cfg, c, e)) == Held(c)
  {
    hide Pump, Flatten;
  }

  lemma OnDisabled(cfg: Config, c: Client, item: Queued, severity: Option<nat>, t0: int, t1: int)
    requires cfg.Valid() && !c.enabled
    ensures OnRecord(cfg, c, item, severity, t0, t1) == c
  {
  }

  lemma OnNothing(cfg: Config, c: Client, items: seq<Queued>, t0: int, t1: int)
    requires cfg.Valid() && (c.closed || items == [])
    ensures OnRestore(cfg, c, items, t0, t1) == c
  {
  }

  lemma StepCounted(cfg: Config, c: Client, h: History, e: Event)
    requires cfg.Valid() && Possible(cfg, c, e) && Counted(c, h)
    ensures Counted(Next(cfg, c, e), Moved(cfg, h, c, e))
  {
    hide Pump, OnRecord, OnRestore, OnReply, OnFlush, OnResume, OnCloseEnd, Disarmed, Armed, Held, InFlight, Excess;
    match e
    case Record(item, severity, t0, t1) => CountedRecord(cfg, c, h, item, severity, t0, t1);
    case Restore(items, t0, t1) => CountedRestore(cfg, c, h, items, t0, t1);
    case Reply(outcome, at) => CountedReply(cfg, c, h, outcome, at);
    case Fires(timer, _, _) => CountedTimer(c, h, timer);
    case FlushCall(t0, t1) => CountedFlush(cfg, c, h, t0, t1);
    case Resume => CountedResume(cfg, c, h);
    case CloseEnd => CountedClose(cfg, c, h);
    case _ =>
  }

  lemma CountedTimer(c: Client, h: History, timer: Timer)
    requires Counted(c, h)
    ensures Counted(Disarmed(c, timer), h)
  {
  }

  lemma CountedFlush(cfg: Config, c: Client, h: History, t0: int, t1: int)
    requires cfg.Valid() && Counted(c, h)
    ensures Counted(OnFlush(cfg, c, t0, t1), h)
  {
    hide Pump;
  }

  lemma CountedResume(cfg: Config, c: Client, h: History)
    requires Counted(c, h)
    ensures Counted(OnResume(cfg, c), h)
  {
    hide BreakerOpen;
  }

  lemma CountedClose(cfg: Config, c: Client, h: History)
    requires cfg.Valid() && Counted(c, h) && Possible(cfg, c, CloseEnd)
    ensures Counted(OnCloseEnd(cfg, c), Moved(cfg, h, c, CloseEnd))
  {
  }

  lemma CountedRecord(cfg: Config, c: Client, h: History, item: Queued, severity: Option<nat>, t0: int, t1: int)
    requires cfg.Valid() && Counted(c, h)
    ensures Counted(OnRecord(cfg, c, item, severity, t0, t1), Moved(cfg, h, c, Record(item, severity, t0, t1)))
  {
    hide Schedule, Newest, Excess, Overflow;
    CapSplits(cfg, c.queue + [item]);
  }

  lemma CountedRestore(cfg: Config, c: Client, h: History, items: seq<Queued>, t0: int, t1: int)
    requires cfg.Valid() && Counted(c, h) && cfg.disk
    ensures Counted(OnRestore(cfg, c, items, t0, t1), Moved(cfg, h, c, Restore(items, t0, t1)))
  {
    hide Pump, Newest;
  }

  lemma CountedReply(cfg: Config, c: Client, h: History, outcome: Outcome, at: int)
    requires cfg.Valid() && Counted(c, h) && c.phase.Sending? && c.phase.batches != []
    ensures Counted(OnReply(cfg, c, outcome, at), Moved(cfg, h, c, Reply(outcome, at)))
  {
    hide Drain, Newest, Continue, InFlight, Failed;
    if outcome == Transient { CountedFailed(cfg, c, h, at); }
  }

  lemma CountedFailed(cfg: Config, c: Client, h: History, at: int)
    requires cfg.Valid() && Counted(c, h) && c.phase.Sending? && c.phase.batches != []
    ensures Counted(Failed(cfg, c, at), Moved(cfg, h, c, Reply(Transient, at)))
  {
    hide Newest, InFlight, Excess, Overflow;
    CapSplits(cfg, Held(c));
    if c.attempt >= cfg.maxRetries {
      assert |h.abandoned + InFlight(c)| == |h.abandoned| + |InFlight(c)|;
    } else {
      assert |h.lost + Excess(cfg, Held(c))| == |h.lost| + |Excess(cfg, Held(c))|;
    }
  }

  // ---------------------------------------------------------------------------
  // Shape: bodies, the request budget, the waiters
  // ---------------------------------------------------------------------------

  ghost predicate Shape(cfg: Config, c: Client) {
    && |c.queue| <= cfg.capacity
    && (c.phase.Sending? ==> Bodies(cfg, c.phase) && Budgeted(cfg, c.phase))
    && (c.phase.Idle? && c.queue == [] ==> c.waiters == 0)
    && (!c.enabled ==> c.closed && !c.interval && !c.coalesce) && (c.over ==> !c.enabled)
  }

  lemma PumpShape(cfg: Config, c: Client, t0: int, t1: int)
    requires cfg.Valid() && Shape(cfg, c)
    ensures Shape(cfg, Pump(cfg, c, t0, t1))
  {
    hide Pump, Bodies, Budgeted, Licensed, BreakerOpen;
    PumpCases(cfg, c, t0, t1);
  }

  lemma StepShape(cfg: Config, c: Client, e: Event)
    requires cfg.Valid() && Shape(cfg, c) && Possible(cfg, c, e)
    ensures Shape(cfg, Next(cfg, c, e))
  {
    hide Pump, OnRecord, OnRestore, OnReply, OnFlush, OnResume, OnCloseEnd, Disarmed, Armed, Bodies, Budgeted;
    match e
    case Record(item, severity, t0, t1) => RecordShape(cfg, c, item, severity, t0, t1);
    case Fires(timer, t0, t1) =>
      DisarmedShape(cfg, c, timer);
      PumpShape(cfg, Disarmed(c, timer), t0, t1);
    case FlushCall(t0, t1) => FlushShape(cfg, c, t0, t1);
    case Reply(outcome, at) => ReplyShape(cfg, c, outcome, at);
    case Restore(items, t0, t1) => RestoreShape(cfg, c, items, t0, t1);
    case Resume => ResumeShape(cfg, c);
    case CloseEnd => CloseShape(cfg, c);
    case _ =>
  }

  lemma DisarmedShape(cfg: Config, c: Client, timer: Timer)
    requires Shape(cfg, c)
    ensures Shape(cfg, Disarmed(c, timer))
  {
    hide Bodies, Budgeted;
  }

  lemma RecordShape(cfg: Config, c: Client, item: Queued, severity: Option<nat>, t0: int, t1: int)
    requires cfg.Valid() && Shape(cfg, c)
    ensures Shape(cfg, OnRecord(cfg, c, item, severity, t0, t1))
  {
    hide Pump, Bodies, Budgeted, Licensed;
    assert Pushed(cfg, c, item).queue != [];
    PumpShape(cfg, Pushed(cfg, c, item), t0, t1);
  }

  lemma FlushShape(cfg: Config, c: Client, t0: int, t1: int)
    requires cfg.Valid() && Shape(cfg, c)
    ensures Shape(cfg, OnFlush(cfg, c, t0, t1))
  {
    hide Pump, Bodies, Budgeted, Licensed;
    PumpShape(cfg, c.(retry := false), t0, t1);
  }

  lemma ResumeShape(cfg: Config, c: Client)
    requires Shape(cfg, c) && c.phase.Ended?
    ensures Shape(cfg, OnResume(cfg, c))
  {
    hide BreakerOpen;
  }

  lemma CloseShape(cfg: Config, c: Client)
    requires Shape(cfg, c) && !c.enabled
    ensures Shape(cfg, OnCloseEnd(cfg, c))
  {
    hide Bodies, Budgeted;
  }

  lemma RestoreShape(cfg: Config, c: Client, items: seq<Queued>, t0: int, t1: int)
    requires cfg.Valid() && Shape(cfg, c)
    ensures Shape(cfg, OnRestore(cfg, c, items, t0, t1))
  {
    hide Pump, Bodies, Budgeted, Licensed;
    var p := Unshifted(cfg, c, items);
    if items != [] {
      assert p.queue != [];
      PumpShape(cfg, p, t0, t1);
    }
  }

  lemma ReplyShape(cfg: Config, c: Client, outcome: Outcome, at: int)
    requires cfg.Valid() && Shape(cfg, c) && c.phase.Sending?
    ensures Shape(cfg, OnReply(cfg, c, outcome, at))
  {
    if outcome != Transient { AnsweredShape(cfg, c, outcome, at); }
    else {
      hide Shape, Failed;
      FailedShape(cfg, c, at);
    }
  }

  lemma AnsweredShape(cfg: Config, c: Client, outcome: Outcome, at: int)
    requires cfg.Valid() && Shape(cfg, c) && c.phase.Sending? && outcome != Transient
    ensures Shape(cfg, OnReply(cfg, c, outcome, at))
  {
    hide Drain, OnReply, Answered, ProperBatch, Licensed;
    AnsweredNext(cfg, c, outcome, at);
    if c.phase.batches[1..] == [] { DrainCases(cfg, Answered(c, outcome), c.phase.requests, at); }
    else { assert forall b | b in c.phase.batches[1..] :: b in c.phase.batches; }
  }

  lemma FailedShape(cfg: Config, c: Client, at: int)
    requires c.phase.Sending? && Shape(cfg, c)
    ensures Shape(cfg, Failed(cfg, c, at))
  {
    hide InFlight;
  }

  // ---------------------------------------------------------------------------
  // The breaker: one probe per cooldown
  // ---------------------------------------------------------------------------

  /** A probe is out only while a request is, and probes keep a full cooldown apart. */
  ghost predicate Probes(cfg: Config, b: B.State, sending: bool, h: History) {
    && (b.probing ==> sending && B.IsOpen(b, cfg.threshold))
    && (B.IsOpen(b, cfg.threshold) ==> b.openedAt == h.lastFailure)
    && (forall i | 0 <= i < |h.requests| && h.requests[i].open :: h.requests[i].lastFailure + cfg.resetMs <= h.requests[i].at)
    && (h.monotone ==> Spaced(cfg, b, h))
  }

  ghost predicate Spaced(cfg: Config, b: B.State, h: History) {
    && (forall i | 0 <= i < |h.requests| :: h.requests[i].at <= h.clock)
    && (B.IsOpen(b, cfg.threshold) && !b.probing ==>
          forall i | 0 <= i < |h.requests| && h.requests[i].open :: h.requests[i].at <= h.lastFailure)
    && (forall i, j | 0 <= i < j < |h.requests| && h.requests[i].open && h.requests[j].open ::
          h.requests[i].at + cfg.resetMs <= h.requests[j].at)
  }

  /** The part of the history the breaker's invariant reads. */
  ghost predicate Ticked(h: History, h': History, now: int) {
    h'.clock == now && (h'.monotone ==> h.monotone && h.clock <= now)
  }

  /** How a segment that is not a reply touches the breaker: not at all, or to put a request out. */
  ghost predicate PumpLike(cfg: Config, c: Client, now: int, c': Client) {
    if c'.phase.Sending? && !c.phase.Sending? then c.phase.Idle? && Licensed(cfg, c.breaker, c'.breaker, now)
    else c'.breaker == c.breaker && (c.phase.Sending? ==> c'.phase.Sending?)
  }

  lemma PumpedProbes(cfg: Config, c: Client, h: History, now: int, c': Client, h': History)
    requires Probes(cfg, c.breaker, c.phase.Sending?, h) && PumpLike(cfg, c, now, c') && Ticked(h, h', now)
    requires h'.lastFailure == h.lastFailure
    requires h'.requests == if c'.phase.Sending? && !c.phase.Sending?
                            then h.requests + [Request(now, BreakerOpen(cfg, c'), h.lastFailure)] else h.requests
    ensures Probes(cfg, c'.breaker, c'.phase.Sending?, h')
  {
  }

  lemma FailedProbes(cfg: Config, b: B.State, h: History, at: int, h': History)
    requires Probes(cfg, b, true, h) && Ticked(h, h', at) && h'.lastFailure == at && h'.requests == h.requests
    ensures Probes(cfg, B.OnFailure(b, cfg.threshold, at), false, h')
  {
  }

  lemma AnsweredProbes(cfg: Config, b: B.State, sending: bool, h: History, at: int, h': History)
    requires cfg.Valid() && Probes(cfg, b, true, h) && Ticked(h, h', at) && h'.lastFailure == h.lastFailure
    requires h'.requests == if sending then h.requests + [Request(at, false, h.lastFailure)] else h.requests
    ensures Probes(cfg, B.OnSuccess(b), sending, h')
  {
  }

  lemma StepPumpLike(cfg: Config, c: Client, e: Event)
    requires cfg.Valid() && Possible(cfg, c, e) && ReadsClock(e) && !e.Reply?
    ensures PumpLike(cfg, c, Times(e).1, Next(cfg, c, e))
  {
    hide Pump, PumpLike, OnRecord, OnRestore, OnFlush, Disarmed;
    match e
    case Record(item, severity, t0, t1) => RecordPumpLike(cfg, c, item, severity, t0, t1);
    case Fires(timer, t0, t1) => FiredPumpLike(cfg, c, timer, t0, t1);
    case FlushCall(t0, t1) => FlushPumpLike(cfg, c, t0, t1);
    case Restore(items, t0, t1) => RestorePumpLike(cfg, c, items, t0, t1);
    case _ =>
  }

  lemma RecordPumpLike(cfg: Config, c: Client, item: Queued, severity: Option<nat>, t0: int, t1: int)
    requires cfg.Valid()
    ensures PumpLike(cfg, c, t1, OnRecord(cfg, c, item, severity, t0, t1))
  {
    hide Pump, Newest, Overflow, Bodies, Budgeted, Licensed;
    PumpCases(cfg, Pushed(cfg, c, item), t0, t1);
  }

  lemma FiredPumpLike(cfg: Config, c: Client, timer: Timer, t0: int, t1: int)
    requires cfg.Valid()
    ensures PumpLike(cfg, c, t1, Pump(cfg, Disarmed(c, timer), t0, t1))
  {
    hide Pump, Newest, Overflow, Bodies, Budgeted, Licensed;
    PumpCases(cfg, Disarmed(c, timer), t0, t1);
  }

  lemma FlushPumpLike(cfg: Config, c: Client, t0: int, t1: int)
    requires cfg.Valid()
    ensures PumpLike(cfg, c, t1, OnFlush(cfg, c, t0, t1))
  {
    hide Pump, Newest, Overflow, Bodies, Budgeted, Licensed;
    PumpCases(cfg, c.(retry := false), t0, t1);
  }

  lemma RestorePumpLike(cfg: Config, c: Client, items: seq<Queued>, t0: int, t1: int)
    requires cfg.Valid()
    ensures PumpLike(cfg, c, t1, OnRestore(cfg, c, items, t0, t1))
  {
    hide Pump, Newest, Overflow, Bodies, Budgeted, Licensed;
    PumpCases(cfg, Unshifted(cfg, c, items), t0, t1);
  }

  lemma ReplyBreaker(cfg: Config, c: Client, outcome: Outcome, at: int)
    requires cfg.Valid() && c.phase.Sending? && c.phase.batches != [] && outcome != Transient
    ensures OnReply(cfg, c, outcome, at).breaker == B.OnSuccess(c.breaker)
  {
    hide Drain, OnReply, Answered, Bodies, Budgeted;
    AnsweredNext(cfg, c, outcome, at);
    if c.phase.batches[1..] == [] { DrainCases(cfg, Answered(c, outcome), c.phase.requests, at); }
  }

  /** What placing the entries of an event leaves alone. */
  lemma MovedClock(cfg: Config, h: History, c: Client, e: Event)
    requires cfg.Valid() && Possible(cfg, c, e)
    ensures var m := Moved(cfg, h, c, e);
            && m.requests == h.requests && m.clock == h.clock && m.monotone == h.monotone
            && m.cutOff == h.cutOff && m.unarmed == h.unarmed
            && m.lastFailure == (if e.Reply? && e.outcome == Transient then e.at else h.lastFailure)
            && m.gaveUp == if e.Reply? then e.outcome == Transient && c.attempt >= cfg.maxRetries else h.gaveUp
  {
    hide Held, InFlight, Excess;
  }

  lemma StepProbes(cfg: Config, c: Client, h: History, e: Event)
    requires cfg.Valid() && Possible(cfg, c, e) && Probes(cfg, c.breaker, c.phase.Sending?, h)
    ensures Probes(cfg, Next(cfg, c, e).breaker, Next(cfg, c, e).phase.Sending?, Remember(cfg, h, c, e))
  {
    hide Probes, PumpLike, Next, Moved, B.OnFailure, B.OnSuccess;
    var c', h' := Next(cfg, c, e), Remember(cfg, h, c, e);
    MovedClock(cfg, h, c, e);
    if e.Reply? {
      ReplyEnds(cfg, c, e.outcome, e.at);
      if e.outcome == Transient { FailedProbes(cfg, c.breaker, h, e.at, h'); }
      else { AnsweredProbes(cfg, c.breaker, c'.phase.Sending?, h, e.at, h'); }
    } else if ReadsClock(e) {
      StepPumpLike(cfg, c, e);
      StepSending(cfg, c, Times(e).1, c');
      PumpedProbes(cfg, c, h, Times(e).1, c', h');
    } else {
      QuietBreaker(cfg, c, e);
      QuietProbes(cfg, c, h, c', h');
    }
  }

  lemma StepSending(cfg: Config, c: Client, now: int, c': Client)
    requires PumpLike(cfg, c, now, c')
    ensures c.phase.Sending? ==> c'.phase.Sending?
  {
  }

  lemma ReplyEnds(cfg: Config, c: Client, outcome: Outcome, at: int)
    requires cfg.Valid() && c.phase.Sending? && c.phase.batches != []
    ensures var c' := Next(cfg, c, Reply(outcome, at));
            if outcome == Transient then !c'.phase.Sending? && c'.breaker == B.OnFailure(c.breaker, cfg.threshold, at)
            else c'.breaker == B.OnSuccess(c.breaker) && !BreakerOpen(cfg, c')
  {
    hide Continue, B.OnFailure, InFlight, Newest, Overflow;
    if outcome != Transient { ReplyBreaker(cfg, c, outcome, at); }
  }

  lemma QuietBreaker(cfg: Config, c: Client, e: Event)
    requires cfg.Valid() && Possible(cfg, c, e) && !ReadsClock(e)
    ensures var c' := Next(cfg, c, e);
            c'.breaker == c.breaker && c'.phase.Sending? == c.phase.Sending? && !Emits(c, e, c')
  {
    hide OnRecord, OnFlush, OnReply, OnRestore, Pump, BreakerOpen, OnResume, OnCloseEnd, Settle;
    match e
    case Resume => ResumeQuiet(cfg, c);
    case CloseEnd => CloseQuiet(cfg, c);
    case _ =>
  }

  lemma ResumeQuiet(cfg: Config, c: Client)
    requires c.phase.Ended?
    ensures OnResume(cfg, c).breaker == c.breaker && OnResume(cfg, c).phase == Idle
  {
    hide BreakerOpen;
  }

  lemma CloseQuiet(cfg: Config, c: Client)
    ensures OnCloseEnd(cfg, c).breaker == c.breaker && OnCloseEnd(cfg, c).phase == c.phase
  {
  }

  lemma QuietProbes(cfg: Config, c: Client, h: History, c': Client, h': History)
    requires Probes(cfg, c.breaker, c.phase.Sending?, h)
    requires c'.breaker == c.breaker && c'.phase.Sending? == c.phase.Sending?
    requires h'.requests == h.requests && h'.lastFailure == h.lastFailure && h'.clock == h.clock && h'.monotone == h.monotone
    ensures Probes(cfg, c'.breaker, c'.phase.Sending?, h')
  {
  }

  // ---------------------------------------------------------------------------
  // Wakeups
  // ---------------------------------------------------------------------------

  datatype Flags = Flags(gaveUp: bool, cutOff: bool, unarmed: bool)

  function FlagsOf(h: History): Flags { Flags(h.gaveUp, h.cutOff, h.unarmed) }

  /** Something will send again without being asked, or one of three named things has happened. */
  ghost predicate Awake(cfg: Config, c: Client, f: Flags) {
    c.enabled ==>
      // A breaker opened by a failure that was requeued still has that work in front of it.
      && (BreakerOpen(cfg, c) && !f.gaveUp ==> c.phase.Sending? || c.queue != [])
      // A drain ends with nothing to do, or with a retry armed.
      && (c.phase.Ended? && !c.retry && !f.gaveUp && !f.cutOff ==>
            !BreakerOpen(cfg, c) && (c.queue == [] || c.coalesce || f.unarmed))
      && (c.phase.Idle? && BreakerOpen(cfg, c) && !c.retry ==> f.gaveUp || f.cutOff)
      && (!c.closed && c.phase.Idle? ==> (c.interval <==> cfg.mode == Interval && !BreakerOpen(cfg, c)))
      && (c.phase.Idle? && cfg.mode == Immediate && c.queue != [] && !c.coalesce && !c.retry ==>
            f.gaveUp || f.cutOff || f.unarmed)
  }

  /** The flags a segment leaves: a window event, or whatever armed a timer, decides. */
  function Flagged(f: Flags, c: Client, e: Event, c': Client): Flags {
    f.(cutOff := if e.FlushCall? && c.phase.Ended? then f.cutOff || c.retry else f.cutOff && !c'.retry && !e.Reply?,
       unarmed := if (e.Record? || e.Restore?) && c.phase.Ended? then true
                  else f.unarmed && !c'.retry && !c'.coalesce && !e.Reply?)
  }

  lemma RecordAwake(cfg: Config, c: Client, f: Flags, item: Queued, severity: Option<nat>, t0: int, t1: int)
    requires cfg.Valid() && Awake(cfg, c, f)
    ensures var c' := OnRecord(cfg, c, item, severity, t0, t1);
            Awake(cfg, c', Flagged(f, c, Record(item, severity, t0, t1), c'))
  {
    hide Pump, Bodies, Budgeted, Licensed;
    var p := Pushed(cfg, c, item);
    assert p.queue != [];
    PumpCases(cfg, p, t0, t1);
  }

  lemma FiredAwake(cfg: Config, c: Client, f: Flags, timer: Timer, t0: int, t1: int)
    requires cfg.Valid() && Awake(cfg, c, f) && Armed(c, timer) && !c.phase.Ended?
    ensures var c' := Pump(cfg, Disarmed(c, timer), t0, t1);
            Awake(cfg, c', Flagged(f, c, Fires(timer, t0, t1), c'))
  {
    hide Pump, Bodies, Budgeted, Licensed;
    PumpCases(cfg, Disarmed(c, timer), t0, t1);
  }

  lemma FlushAwake(cfg: Config, c: Client, f: Flags, t0: int, t1: int)
    requires cfg.Valid() && Awake(cfg, c, f)
    ensures var c' := OnFlush(cfg, c, t0, t1);
            Awake(cfg, c', Flagged(f, c, FlushCall(t0, t1), c'))
  {
    hide Pump, Bodies, Budgeted, Licensed;
    PumpCases(cfg, c.(retry := false), t0, t1);
  }

  lemma RestoreAwake(cfg: Config, c: Client, f: Flags, items: seq<Queued>, t0: int, t1: int)
    requires cfg.Valid() && Awake(cfg, c, f)
    ensures var c' := OnRestore(cfg, c, items, t0, t1);
            Awake(cfg, c', Flagged(f, c, Restore(items, t0, t1), c'))
  {
    hide Pump, Bodies, Budgeted, Licensed;
    var p := Unshifted(cfg, c, items);
    assert items != [] ==> p.queue != [];
    PumpCases(cfg, p, t0, t1);
  }

  lemma AnsweredAwake(cfg: Config, c: Client, f: Flags, outcome: Outcome, at: int)
    requires cfg.Valid() && c.phase.Sending? && c.phase.batches != [] && outcome != Transient
    ensures var c' := OnReply(cfg, c, outcome, at);
            Awake(cfg, c', Flagged(f.(gaveUp := false), c, Reply(outcome, at), c'))
  {
    hide Drain, OnReply, Answered, Bodies, Budgeted, Licensed;
    AnsweredNext(cfg, c, outcome, at);
    if c.phase.batches[1..] == [] { DrainCases(cfg, Answered(c, outcome), c.phase.requests, at); }
  }

  lemma FailedAwake(cfg: Config, c: Client, f: Flags, at: int)
    requires cfg.Valid() && Shape(cfg, c) && c.phase.Sending?
    ensures Awake(cfg, Failed(cfg, c, at), Flagged(f.(gaveUp := c.attempt >= cfg.maxRetries), c, Reply(Transient, at), Failed(cfg, c, at)))
  {
    hide ProperBatch;
    var batches := c.phase.batches;
    assert ProperBatch(batches[0], cfg.maxBatch);
    assert InFlight(c) == batches[0] + Flatten(batches[1..]);
    assert |batches[0]| > 0 by { BatchSize(batches[0], cfg.maxBatch); }
  }

  lemma BatchSize(b: seq<Queued>, max: nat)
    requires ProperBatch(b, max)
    ensures 0 < |b| <= max
  {
  }

  lemma QuietAwake(cfg: Config, c: Client, f: Flags, e: Event)
    requires cfg.Valid() && Possible(cfg, c, e) && !ReadsClock(e) && Awake(cfg, c, f)
    ensures Awake(cfg, Next(cfg, c, e), Flagged(f, c, e, Next(cfg, c, e)))
  {
    hide Pump, OnRecord, OnRestore, OnReply, OnFlush, OnResume, OnCloseEnd, Disarmed, Armed;
    match e
    case Resume => ResumeAwake(cfg, c, f);
    case CloseEnd => CloseAwake(cfg, c);
    case _ =>
  }

  lemma ResumeAwake(cfg: Config, c: Client, f: Flags)
    requires cfg.Valid() && c.phase.Ended? && Awake(cfg, c, f)
    ensures Awake(cfg, OnResume(cfg, c), Flagged(f, c, Resume, OnResume(cfg, c)))
  {
    hide B.IsOpen;
  }

  lemma CloseAwake(cfg: Config, c: Client)
    ensures OnCloseEnd(cfg, c).enabled == c.enabled
  {
  }

  lemma FlagsFollow(cfg: Config, h: History, c: Client, e: Event)
    requires cfg.Valid() && Possible(cfg, c, e)
    ensures FlagsOf(Remember(cfg, h, c, e)) ==
            Flagged(FlagsOf(h).(gaveUp := if e.Reply? then e.outcome == Transient && c.attempt >= cfg.maxRetries else h.gaveUp),
                    c, e, Next(cfg, c, e))
  {
    hide Next, Moved;
    MovedClock(cfg, h, c, e);
  }

  lemma StepAwake(cfg: Config, c: Client, h: History, e: Event)
    requires cfg.Valid() && Shape(cfg, c) && Possible(cfg, c, e) && Awake(cfg, c, FlagsOf(h))
    ensures Awake(cfg, Next(cfg, c, e), FlagsOf(Remember(cfg, h, c, e)))
  {
    hide Awake, Flagged, Remember, OnRecord, OnRestore, OnFlush, Pump, Continue, Failed, Shape, Armed, Disarmed;
    var f := FlagsOf(h);
    FlagsFollow(cfg, h, c, e);
    if !ReadsClock(e) { QuietAwake(cfg, c, f, e); }
    else {
      match e
      case Record(item, severity, t0, t1) => RecordAwake(cfg, c, f, item, severity, t0, t1);
      case Fires(timer, t0, t1) => FiredAwake(cfg, c, f, timer, t0, t1);
      case FlushCall(t0, t1) => FlushAwake(cfg, c, f, t0, t1);
      case Restore(items, t0, t1) => RestoreAwake(cfg, c, f, items, t0, t1);
      case Reply(outcome, at) =>
        if outcome == Transient { FailedAwake(cfg, c, f, at); } else { AnsweredAwake(cfg, c, f, outcome, at); }
      case _ =>
    }
  }

  // ---------------------------------------------------------------------------
  // Every run
  // ---------------------------------------------------------------------------

  ghost predicate Inv(cfg: Config, s: State) {
    && Shape(cfg, s.c) && Counted(s.c, s.h) && Places(cfg, s.c, s.h)
    && Probes(cfg, s.c.breaker, s.c.phase.Sending?, s.h) && Awake(cfg, s.c, FlagsOf(s.h))
  }

  lemma InitialInv(cfg: Config)
    requires cfg.Valid()
    ensures Inv(cfg, State(Initial(cfg), NOTHING_YET))
  {
    assert Held(Initial(cfg)) == [];
  }

  lemma StampKeepsPlaces(cfg: Config, c: Client, h: History, e: Event)
    requires cfg.Valid() && Possible(cfg, c, e)
    requires Counted(Next(cfg, c, e), Moved(cfg, h, c, e)) && Places(cfg, Next(cfg, c, e), Moved(cfg, h, c, e))
    ensures Counted(Next(cfg, c, e), Remember(cfg, h, c, e)) && Places(cfg, Next(cfg, c, e), Remember(cfg, h, c, e))
  {
    hide Next, Moved, Held, Emits;
  }

  lemma StepInv(cfg: Config, s: State, e: Event)
    requires cfg.Valid() && Inv(cfg, s) && Possible(cfg, s.c, e)
    ensures Inv(cfg, State(Next(cfg, s.c, e), Remember(cfg, s.h, s.c, e)))
  {
    hide Next, Remember, Moved, Places, Counted, Probes, Awake, Shape;
    StepShape(cfg, s.c, e);
    StepCounted(cfg, s.c, s.h, e);
    StepPlaces(cfg, s.c, s.h, e);
    StampKeepsPlaces(cfg, s.c, s.h, e);
    StepProbes(cfg, s.c, s.h, e);
    StepAwake(cfg, s.c, s.h, e);
  }

  lemma {:induction false} RunInv(cfg: Config, events: seq<Event>)
    requires cfg.Valid() && After(cfg, events).Some?
    ensures Inv(cfg, After(cfg, events).value)
    decreases |events|
  {
    hide Next, Remember, Inv;
    if events == [] { InitialInv(cfg); }
    else {
      RunInv(cfg, Front(events));
      StepInv(cfg, After(cfg, Front(events)).value, Last(events));
    }
  }

  /** No entry is lost track of, however replies, flushes and overflows interleave, and `stats` is honest. */
  lemma Conservation(cfg: Config, events: seq<Event>)
    requires cfg.Valid() && After(cfg, events).Some?
    ensures var State(c, h) := After(cfg, events).value;
            && multiset(h.recorded) + multiset(h.restored) ==
               multiset(InFlight(c) + c.queue) + (multiset(h.sent) + multiset(h.abandoned) + multiset(h.lost) + multiset(h.kept))
            && |h.recorded| + c.restored == |InFlight(c)| + |c.queue| + c.sent + c.abandoned + c.dropped + |h.kept|
            && |c.queue| <= cfg.capacity
  {
    RunInv(cfg, events);
    var State(c, h) := After(cfg, events).value;
    ConservedCount(h, Held(c));
  }

  lemma ConservedCount(h: History, line: seq<Queued>)
    requires Conserved(h, line)
    ensures |h.recorded| + |h.restored| == |line| + |h.sent| + |h.abandoned| + |h.lost| + |h.kept|
  {
    assert |Entered(h)| == |h.recorded| + |h.restored|;
    assert |multiset(line) + Gone(h)| == |line| + |h.sent| + |h.abandoned| + |h.lost| + |h.kept|;
  }

  /** First in, first out, per resource group: slicing, chunking, requeueing and overflow keep it. */
  lemma PerGroupFifo(cfg: Config, events: seq<Event>, g: string)
    requires cfg.Valid() && !cfg.disk && After(cfg, events).Some?
    ensures var State(c, h) := After(cfg, events).value;
            Subsequence(OfGroup(h.sent + (InFlight(c) + c.queue), g), OfGroup(h.recorded, g))
  {
    RunInv(cfg, events);
  }

  /** Where everything recorded is of one resource, first in, first out of all of it. */
  lemma OneGroupFifo(cfg: Config, events: seq<Event>, g: string)
    requires cfg.Valid() && !cfg.disk && After(cfg, events).Some?
    requires forall x | x in After(cfg, events).value.h.recorded :: x.group == g
    ensures var State(c, h) := After(cfg, events).value;
            Subsequence(h.sent + (InFlight(c) + c.queue), h.recorded)
  {
    var State(c, h) := After(cfg, events).value;
    var line := h.sent + (InFlight(c) + c.queue);
    forall x | x in line
      ensures x.group == g
    {
      PerGroupFifo(cfg, events, x.group);
      OfGroupMember(line, x.group);
      OfGroupMember(h.recorded, x.group);
      assert x in OfGroup(line, x.group);
    }
    PerGroupFifo(cfg, events, g);
    AllOfGroup(line, g);
    AllOfGroup(h.recorded, g);
  }

  lemma {:induction false} AllOfGroup(s: seq<Queued>, g: string)
    requires forall x | x in s :: x.group == g
    ensures OfGroup(s, g) == s
    decreases |s|
  {
    if s != [] {
      assert s == Front(s) + [Last(s)];
      AllOfGroup(Front(s), g);
    }
  }

  /** A drain ends: it makes a bounded number of requests even while entries arrive forever. */
  lemma RequestBudget(cfg: Config, events: seq<Event>)
    requires cfg.Valid() && After(cfg, events).Some?
    ensures var p := After(cfg, events).value.c.phase;
            p.Sending? ==>
              && p.requests <= cfg.maxRequestsPerFlush - 1 + Min(cfg.maxEntriesPerFlush, cfg.capacity)
              && p.batches != [] && forall b | b in p.batches :: ProperBatch(b, cfg.maxBatch)
  {
    RunInv(cfg, events);
  }

  /** Only a reply moves a drain, and it uses up one request of the budget or ends it. */
  lemma DrainAdvances(cfg: Config, c: Client, e: Event)
    requires cfg.Valid() && c.phase.Sending? && Possible(cfg, c, e)
    ensures var p := Next(cfg, c, e).phase;
            if e.Reply? then p.Sending? ==> p.requests == c.phase.requests + 1 else p == c.phase
  {
    hide Drain, InFlight;
    if e.Reply? && e.outcome != Transient { DrainCases(cfg, Answered(c, e.outcome), c.phase.requests, e.at); }
  }

  /** One probe per cooldown, and the breaker never sticks half open. */
  lemma OneProbePerCooldown(cfg: Config, events: seq<Event>)
    requires cfg.Valid() && After(cfg, events).Some?
    ensures var State(c, h) := After(cfg, events).value;
            && (c.breaker.probing ==> c.phase.Sending?)
            && (forall i | 0 <= i < |h.requests| && h.requests[i].open ::
                  h.requests[i].lastFailure + cfg.resetMs <= h.requests[i].at)
            && (h.monotone ==> forall i, j | 0 <= i < j < |h.requests| && h.requests[i].open && h.requests[j].open ::
                  h.requests[i].at + cfg.resetMs <= h.requests[j].at)
  {
    RunInv(cfg, events);
  }

  /** An idle, live client in interval mode has a timer, or has given up, or was cut off. */
  lemma NoLostWakeup(cfg: Config, events: seq<Event>)
    requires cfg.Valid() && After(cfg, events).Some?
    ensures var State(c, h) := After(cfg, events).value;
            c.enabled && !c.closed && c.phase.Idle? ==>
              && (cfg.mode == Interval ==> (c.interval <==> !BreakerOpen(cfg, c)))
              && (cfg.mode == Interval && !c.interval && !c.retry ==> h.gaveUp || h.cutOff)
              && (cfg.mode == Immediate && c.queue != [] && !c.coalesce && !c.retry ==> h.gaveUp || h.cutOff || h.unarmed)
              && (BreakerOpen(cfg, c) && !h.gaveUp ==> c.queue != [] && (c.retry || h.cutOff))
  {
    RunInv(cfg, events);
  }

  /** No flush waits on an idle, empty client. */
  lemma FlushesSettle(cfg: Config, events: seq<Event>)
    requires cfg.Valid() && After(cfg, events).Some?
    ensures var c := After(cfg, events).value.c;
            c.phase.Idle? && c.queue == [] ==> c.waiters == 0
  {
    RunInv(cfg, events);
  }

  // ---------------------------------------------------------------------------
  // Giving up
  // ---------------------------------------------------------------------------

  /** Transient failures since the last success; a permanent refusal neither counts nor clears. */
  function Streak(events: seq<Event>): nat {
    if events == [] then 0
    else
      match Last(events)
      case Reply(Ok, _) => 0
      case Reply(Transient, _) => Streak(Front(events)) + 1
      case _ => Streak(Front(events))
  }

  lemma AttemptFrame(cfg: Config, c: Client, e: Event)
    requires cfg.Valid() && Possible(cfg, c, e) && !e.Reply?
    ensures Next(cfg, c, e).attempt == c.attempt
  {
    hide Pump, BreakerOpen, OnReply, Armed, OnRecord, OnRestore, OnFlush, OnResume, OnCloseEnd, Disarmed;
    match e
    case Record(item, severity, t0, t1) => RecordFrame(cfg, c, item, severity, t0, t1);
    case Restore(items, t0, t1) => RestoreFrame(cfg, c, items, t0, t1);
    case FlushCall(t0, t1) => FlushFrame(cfg, c, t0, t1);
    case Fires(timer, _, _) => assert Disarmed(c, timer).attempt == c.attempt by { DisarmFrame(c, timer); }
    case Resume => ResumeFrame(cfg, c);
    case CloseRelease => ResumeFrame(cfg, c);
    case CloseEnd => ResumeFrame(cfg, c);
    case _ =>
  }

  lemma RecordFrame(cfg: Config, c: Client, item: Queued, severity: Option<nat>, t0: int, t1: int)
    requires cfg.Valid()
    ensures OnRecord(cfg, c, item, severity, t0, t1).attempt == c.attempt
  {
    hide Pump, Newest, Overflow;
  }

  lemma RestoreFrame(cfg: Config, c: Client, items: seq<Queued>, t0: int, t1: int)
    requires cfg.Valid()
    ensures OnRestore(cfg, c, items, t0, t1).attempt == c.attempt
  {
    hide Pump, Newest, Overflow;
  }

  lemma FlushFrame(cfg: Config, c: Client, t0: int, t1: int)
    requires cfg.Valid()
    ensures OnFlush(cfg, c, t0, t1).attempt == c.attempt
  {
    hide Pump;
  }

  lemma DisarmFrame(c: Client, timer: Timer)
    ensures Disarmed(c, timer).attempt == c.attempt
  {
  }

  lemma ResumeFrame(cfg: Config, c: Client)
    ensures OnResume(cfg, c).attempt == c.attempt && OnCloseEnd(cfg, c).attempt == c.attempt
    ensures OnCloseRelease(c).attempt == c.attempt
  {
    hide BreakerOpen;
  }

  lemma AttemptReply(cfg: Config, c: Client, outcome: Outcome, at: int)
    requires cfg.Valid() && c.phase.Sending? && c.phase.batches != []
    ensures OnReply(cfg, c, outcome, at).attempt ==
            match outcome
            case Ok => 0
            case Permanent => c.attempt
            case Transient => if c.attempt >= cfg.maxRetries then 0 else c.attempt + 1
  {
    hide Drain, InFlight, Continue, Newest, Overflow, B.OnFailure, B.OnSuccess;
    if outcome != Transient { AnsweredNext(cfg, c, outcome, at); }
  }

  lemma NextModulo(n: nat, m: nat)
    requires m > 0
    ensures (n + 1) % m == if n % m + 1 == m then 0 else n % m + 1
  {
    var q, r := n / m, n % m;
    assert n == q * m + r;
    if r + 1 == m {
      assert n + 1 == (q + 1) * m + 0;
      Residue(q + 1, m, 0);
    } else {
      assert n + 1 == q * m + (r + 1);
      Residue(q, m, r + 1);
    }
  }

  lemma Residue(q: nat, m: nat, r: nat)
    requires r < m
    ensures (q * m + r) % m == r
  {
    Quotient(q * m + r, m, q);
  }

  /** The client gives a slice up on every `maxRetries + 1`-th failure in a row, and on no other. */
  lemma {:induction false} GivesUpOnSchedule(cfg: Config, events: seq<Event>)
    requires cfg.Valid() && After(cfg, events).Some?
    ensures After(cfg, events).value.c.attempt == Streak(events) % (cfg.maxRetries + 1)
    decreases |events|
  {
    hide Next, Remember;
    if events != [] {
      var e, c := Last(events), After(cfg, Front(events)).value.c;
      GivesUpOnSchedule(cfg, Front(events));
      if e.Reply? {
        NextIsReply(cfg, c, e);
        AttemptReply(cfg, c, e.outcome, e.at);
        NextModulo(Streak(Front(events)), cfg.maxRetries + 1);
      } else {
        AttemptFrame(cfg, c, e);
      }
    }
  }

  lemma NextIsReply(cfg: Config, c: Client, e: Event)
    requires cfg.Valid() && Possible(cfg, c, e) && e.Reply?
    ensures Next(cfg, c, e) == OnReply(cfg, c, e.outcome, e.at)
  {
    hide OnReply;
  }

  // ---------------------------------------------------------------------------
  // Going out at once
  // ---------------------------------------------------------------------------

  lemma PumpSends(cfg: Config, c: Client, t0: int, t1: int)
    requires cfg.Valid() && c.phase.Idle? && c.queue != [] && t0 <= t1
    requires B.RetryAfter(c.breaker, cfg.threshold, cfg.resetMs, t0) == 0
    ensures var p := Pump(cfg, c, t0, t1);
            && p.phase.Sending? && p.phase.requests == 1
            && p.phase.batches == Batches(Take(c.queue, cfg.maxEntriesPerFlush), cfg.maxBatch)
            && p.queue == Rest(c.queue, cfg.maxEntriesPerFlush) && p.retry == c.retry
  {
    hide Batches;
  }

  /** On an idle client with a licence, what a severe entry or a full queue or a flush starts is a request, now. */
  lemma UrgentGoesOut(cfg: Config, c: Client, item: Queued, severity: Option<nat>, t0: int, t1: int)
    requires cfg.Valid() && c.enabled && c.phase.Idle? && t0 <= t1
    requires B.RetryAfter(c.breaker, cfg.threshold, cfg.resetMs, t0) == 0
    ensures var r := OnRecord(cfg, c, item, severity, t0, t1);
            var severe := cfg.flushOnSeverity.Some? && severity.Some? && severity.value >= cfg.flushOnSeverity.value;
            var full := cfg.mode == Interval && Min(|c.queue| + 1, cfg.capacity) >= cfg.flushAt;
            r.phase.Sending? <==> severe || full
    ensures c.queue != [] ==> OnFlush(cfg, c, t0, t1).phase.Sending? && OnFlush(cfg, c, t0, t1).waiters == c.waiters + 1
  {
    hide Pump, Batches;
    PumpSends(cfg, Pushed(cfg, c, item), t0, t1);
    if c.queue != [] { PumpSends(cfg, c.(retry := false), t0, t1); }
  }

  /**
   * What a restore starts on such a client. What came back stands in front of
   * what was queued, up to the bound, and is on its way at once where the mode is
   * startup, or interval with enough of it; elsewhere nothing else moves, but for
   * the window of immediate mode.
   */
  lemma RestoreGoesOut(cfg: Config, c: Client, items: seq<Queued>, t0: int, t1: int)
    requires cfg.Valid() && !c.closed && c.phase.Idle? && items != [] && t0 <= t1
    requires B.RetryAfter(c.breaker, cfg.threshold, cfg.resetMs, t0) == 0
    ensures var r, line := OnRestore(cfg, c, items, t0, t1), Newest(items + c.queue, cfg.capacity);
            && (r.phase.Sending? <==> cfg.mode == Startup || (cfg.mode == Interval && |line| >= cfg.flushAt))
            && (r.phase.Sending? ==>
                  && r.phase == Sending(Batches(Take(line, cfg.maxEntriesPerFlush), cfg.maxBatch), 1)
                  && r.queue == Rest(line, cfg.maxEntriesPerFlush))
            && (!r.phase.Sending? ==>
                  r == c.(queue := line, dropped := r.dropped, restored := r.restored,
                          coalesce := c.coalesce || cfg.mode == Immediate))
            && r.restored == c.restored + |items| && r.dropped == c.dropped + |items| + |c.queue| - |line|
  {
    hide Pump, Batches;
    var r := Unshifted(cfg, c, items);
    assert r.queue != [];
    PumpSends(cfg, r, t0, t1);
  }

  // ---------------------------------------------------------------------------
  // The requests that failed
  // ---------------------------------------------------------------------------

  /** How many replies of a run were anything but a yes. */
  function Refusals(events: seq<Event>): nat {
    if events == [] then 0
    else Refusals(Front(events)) + if Last(events).Reply? && Last(events).outcome != Ok then 1 else 0
  }

  /** The counter of failed requests counts them, each once. */
  lemma {:induction false} FailuresCounted(cfg: Config, events: seq<Event>)
    requires cfg.Valid() && After(cfg, events).Some?
    ensures After(cfg, events).value.c.failed == Refusals(events)
    decreases |events|
  {
    if events != [] {
      FailuresCounted(cfg, Front(events));
      StepFailed(cfg, After(cfg, Front(events)).value.c, Last(events));
    }
  }

  lemma StepFailed(cfg: Config, c: Client, e: Event)
    requires cfg.Valid() && Possible(cfg, c, e)
    ensures Next(cfg, c, e).failed == c.failed + if e.Reply? && e.outcome != Ok then 1 else 0
  {
    hide Pump, OnReply, OnRecord, OnRestore, Newest, Overflow;
    match e
    case Reply(outcome, at) => ReplyFailed(cfg, c, outcome, at);
    case Record(item, severity, t0, t1) => RecordFailed(cfg, c, item, severity, t0, t1);
    case Restore(items, t0, t1) => RestoreFailed(cfg, c, items, t0, t1);
    case _ =>
  }

  lemma ReplyFailed(cfg: Config, c: Client, outcome: Outcome, at: int)
    requires cfg.Valid() && c.phase.Sending? && c.phase.batches != []
    ensures OnReply(cfg, c, outcome, at).failed == c.failed + if outcome != Ok then 1 else 0
  {
    hide Continue, Failed, Answered;
    FailedFailed(cfg, c, at);
    if outcome != Transient { AnsweredFailed(c, outcome); }
  }

  lemma FailedFailed(cfg: Config, c: Client, at: int)
    requires c.phase.Sending?
    ensures Failed(cfg, c, at).failed == c.failed + 1
  {
    hide B.OnFailure, Newest, Overflow, InFlight;
  }

  lemma AnsweredFailed(c: Client, outcome: Outcome)
    requires c.phase.Sending? && c.phase.batches != []
    ensures Answered(c, outcome).failed == c.failed + if outcome == Ok then 0 else 1
  {
    hide B.OnSuccess;
  }

  lemma RecordFailed(cfg: Config, c: Client, item: Queued, severity: Option<nat>, t0: int, t1: int)
    requires cfg.Valid()
    ensures OnRecord(cfg, c, item, severity, t0, t1).failed == c.failed
  {
    hide Schedule, Newest, Overflow;
  }

  lemma RestoreFailed(cfg: Config, c: Client, items: seq<Queued>, t0: int, t1: int)
    requires cfg.Valid()
    ensures OnRestore(cfg, c, items, t0, t1).failed == c.failed
  {
    hide Pump, Newest, Overflow;
  }

  // ---------------------------------------------------------------------------
  // Disabled
  // ---------------------------------------------------------------------------

  /** Nothing recorded, nothing queued, nothing armed, nothing out. */
  predicate Inert(c: Client) {
    !c.enabled && c.phase.Idle? && c.queue == [] && !c.interval && !c.retry && !c.coalesce
  }

  /** A disabled client stays as it is, whatever is called: all that changes is how far `close` has got. */
  lemma DisabledIsInert(cfg: Config, c: Client, e: Event)
    requires cfg.Valid() && Inert(c) && Possible(cfg, c, e) && !e.Restore?
    ensures Inert(Disabled(cfg))
    ensures var d := Next(cfg, c, e);
            Inert(d) && d == c.(closed := d.closed, over := d.over, waiters := d.waiters) && d.waiters <= c.waiters
  {
    hide Pump;
  }
}
