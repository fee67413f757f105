/**
 * What a drain's two limits decide: how many requests it can make, and whether
 * entries of different resources can overtake each other. Both answers depend on
 * one number, the most entries a slice can hold.
 */
module DeliveryBounds {
  import opened Sequences
  import opened Grouping
  import opened Queues
  import opened Delivery
  import opened DeliveryRuns
  import B = Breakers
  import Edge

  // ---------------------------------------------------------------------------
  // Runs that fill a slice
  // ---------------------------------------------------------------------------

  /** Live, with a closed breaker. */
  predicate Calm(c: Client) { c.enabled && c.breaker == B.CLOSED }

  ghost predicate Sends(cfg: Config, s: State, batches: seq<seq<Queued>>, requests: nat)
    requires cfg.Valid()
  {
    Reachable(cfg, s) && Calm(s.c) && s.c.phase == Sending(batches, requests) && s.c.queue == []
  }

  /** While a drain is out, or in the window after one, a record is a push and nothing else. */
  lemma RecordPushes(cfg: Config, s: State, x: Queued)
    requires cfg.Valid() && s.c.enabled && !s.c.phase.Idle? && |s.c.queue| < cfg.capacity
    ensures var e := Record(x, None, 0, 0);
            && Next(cfg, s.c, e) == s.c.(queue := s.c.queue + [x])
            && Remember(cfg, s.h, s.c, e).recorded == s.h.recorded + [x] && Remember(cfg, s.h, s.c, e).sent == s.h.sent
  {
    hide Pump, Remember, Newest, Overflow;
    Roomy(s.c.queue + [x], cfg.capacity);
    Busy(cfg, s.c.(queue := s.c.queue + [x]));
    TurnHistory(cfg, s.h, s.c, Record(x, None, 0, 0));
  }

  lemma Roomy(s: seq<Queued>, capacity: nat)
    requires |s| <= capacity
    ensures Newest(s, capacity) == s && Overflow(s, capacity) == 0
  {
  }

  lemma Busy(cfg: Config, c: Client)
    requires cfg.Valid() && !c.phase.Idle?
    ensures Pump(cfg, c, 0, 0) == c
  {
  }

  /** Where an event leaves `sent` and `recorded`. */
  lemma TurnHistory(cfg: Config, h: History, c: Client, e: Event)
    requires cfg.Valid() && Possible(cfg, c, e)
    ensures var h' := Remember(cfg, h, c, e);
            && h'.recorded == (if e.Record? && c.enabled then h.recorded + [e.item] else h.recorded)
            && h'.sent == if e.Reply? && e.outcome == Ok then h.sent + c.phase.batches[0] else h.sent
  {
    hide Next, Held, InFlight, Excess, Emits;
  }

  lemma {:induction false} Fill(cfg: Config, s: State, xs: seq<Queued>) returns (t: State)
    requires cfg.Valid() && Reachable(cfg, s) && s.c.enabled && !s.c.phase.Idle? && |s.c.queue| + |xs| <= cfg.capacity
    ensures Reachable(cfg, t) && t.c == s.c.(queue := s.c.queue + xs)
    ensures t.h.recorded == s.h.recorded + xs && t.h.sent == s.h.sent
    decreases |xs|
  {
    hide Reachable, Next, Remember;
    if xs == [] {
      assert s.c.queue + xs == s.c.queue && s.h.recorded + xs == s.h.recorded;
      t := s;
    } else {
      var u := Fill(cfg, s, Front(xs));
      var x := Last(xs);
      assert xs == Front(xs) + [x];
      RecordPushes(cfg, u, x);
      Reaches(cfg, u, Record(x, None, 0, 0));
      t := State(Next(cfg, u.c, Record(x, None, 0, 0)), Remember(cfg, u.h, u.c, Record(x, None, 0, 0)));
      Assoc(s.c.queue, Front(xs), [x]);
      Assoc(s.h.recorded, Front(xs), [x]);
    }
  }

  /** A flush of an idle client with nothing queued opens the window of an empty drain. */
  lemma EmptyFlush(cfg: Config, c: Client)
    requires cfg.Valid() && Calm(c) && c.phase.Idle? && c.queue == []
    ensures Next(cfg, c, FlushCall(0, 0)) == c.(retry := false, phase := Ended, waiters := c.waiters + 1)
  {
  }

  /** A slice that takes everything. */
  lemma WholeSlice(cfg: Config, c: Client, requests: nat)
    requires cfg.Valid() && Calm(c) && 0 < |c.queue| <= cfg.maxEntriesPerFlush && requests < cfg.maxRequestsPerFlush
    ensures Drain(cfg, c, requests, 0) == c.(queue := [], phase := Sending(Batches(c.queue, cfg.maxBatch), requests + 1))
  {
    hide Batches;
    assert Take(c.queue, cfg.maxEntriesPerFlush) == c.queue && Rest(c.queue, cfg.maxEntriesPerFlush) == [];
  }

  lemma FullFlush(cfg: Config, c: Client)
    requires cfg.Valid() && Calm(c) && c.phase.Idle? && 0 < |c.queue| <= cfg.maxEntriesPerFlush
    ensures Next(cfg, c, FlushCall(0, 0)) ==
            c.(retry := false, queue := [], phase := Sending(Batches(c.queue, cfg.maxBatch), 1), waiters := c.waiters + 1)
  {
    hide Batches, Drain;
    WholeSlice(cfg, c.(retry := false), 0);
  }

  /** The first slice of a run: recorded in the window of an empty drain, and flushed. */
  lemma FirstSlice(cfg: Config, xs: seq<Queued>) returns (s: State)
    requires cfg.Valid() && 0 < |xs| <= SliceBound(cfg)
    ensures Sends(cfg, s, Batches(xs, cfg.maxBatch), 1) && s.h.recorded == xs && s.h.sent == []
  {
    hide Reachable, Remember, Batches, Next;
    var flush := FlushCall(0, 0);
    var s0 := State(Initial(cfg), NOTHING_YET);
    ReachesStart(cfg);
    EmptyFlush(cfg, s0.c);
    Reaches(cfg, s0, flush);
    TurnHistory(cfg, s0.h, s0.c, flush);
    var s1 := State(Next(cfg, s0.c, flush), Remember(cfg, s0.h, s0.c, flush));
    var s2 := Fill(cfg, s1, xs);
    assert [] + xs == xs;
    Reaches(cfg, s2, Resume);
    TurnHistory(cfg, s2.h, s2.c, Resume);
    var s3 := State(Next(cfg, s2.c, Resume), Remember(cfg, s2.h, s2.c, Resume));
    Resumed(cfg, s2.c);
    FullFlush(cfg, s3.c);
    Reaches(cfg, s3, flush);
    TurnHistory(cfg, s3.h, s3.c, flush);
    s := State(Next(cfg, s3.c, flush), Remember(cfg, s3.h, s3.c, flush));
  }

  lemma Resumed(cfg: Config, c: Client)
    requires cfg.Valid() && c.phase.Ended? && c.queue != []
    ensures var r := Next(cfg, c, Resume);
            r.phase.Idle? && r.queue == c.queue && r.breaker == c.breaker && r.enabled == c.enabled
  {
  }

  /** Any slice up to the bound, as the last one the budget allows or any before it. */
  lemma {:induction false} Launch(cfg: Config, xs: seq<Queued>, requests: nat) returns (s: State)
    requires cfg.Valid() && 0 < |xs| <= SliceBound(cfg) && 1 <= requests <= cfg.maxRequestsPerFlush
    ensures Sends(cfg, s, Batches(xs, cfg.maxBatch), requests)
    decreases requests
  {
    hide Reachable, Remember, Batches, Next;
    if requests == 1 {
      s := FirstSlice(cfg, xs);
    } else {
      var s0 := Launch(cfg, [xs[0]], requests - 1);
      var s1 := Fill(cfg, s0, xs);
      assert [] + xs == xs;
      LoneBatch(xs[0], cfg.maxBatch);
      var ok := Reply(Ok, 0);
      LastAnswered(cfg, s1.c);
      Reaches(cfg, s1, ok);
      s := State(Next(cfg, s1.c, ok), Remember(cfg, s1.h, s1.c, ok));
    }
  }

  lemma LoneBatch(x: Queued, max: nat)
    requires 0 < max
    ensures Batches([x], max) == [[x]]
  {
    SinglesAreBatches([x], max);
    assert Front([x]) == [];
  }

  /** With the slice answered and entries waiting, the drain takes the next slice. */
  lemma LastAnswered(cfg: Config, c: Client)
    requires cfg.Valid() && Calm(c) && 0 < |c.queue| <= cfg.maxEntriesPerFlush
    requires c.phase.Sending? && |c.phase.batches| == 1 && c.phase.requests < cfg.maxRequestsPerFlush
    ensures var r := Next(cfg, c, Reply(Ok, 0));
            Calm(r) && r.queue == [] && r.phase == Sending(Batches(c.queue, cfg.maxBatch), c.phase.requests + 1)
  {
    hide Batches, Drain;
    WholeSlice(cfg, Answered(c, Ok), c.phase.requests);
  }

  /** The batches of a slice are taken one after the other. */
  lemma {:induction false} Answer(cfg: Config, s: State, n: nat) returns (t: State)
    requires cfg.Valid() && s.c.phase.Sending? && Sends(cfg, s, s.c.phase.batches, s.c.phase.requests)
    requires n <= |s.c.phase.batches|
    ensures Reachable(cfg, t) && t.h.recorded == s.h.recorded
    ensures t.h.sent == s.h.sent + Flatten(s.c.phase.batches[..n])
    ensures n < |s.c.phase.batches| ==> Sends(cfg, t, s.c.phase.batches[n..], s.c.phase.requests + n)
    decreases n
  {
    hide Reachable, Remember, Next, Flatten;
    var batches := s.c.phase.batches;
    if n == 0 {
      assert batches[..0] == [] && batches[0..] == batches;
      assert Flatten<Queued>([]) == [] by { FlattenEmpty(); }
      assert s.h.sent + [] == s.h.sent;
      t := s;
    } else {
      var u := Answer(cfg, s, n - 1);
      var ok, left := Reply(Ok, 0), batches[n - 1..];
      assert left[0] == batches[n - 1] && left[1..] == batches[n..];
      NextBatch(cfg, u);
      Reaches(cfg, u, ok);
      t := State(Next(cfg, u.c, ok), Remember(cfg, u.h, u.c, ok));
      assert batches[..n] == batches[..n - 1] + [batches[n - 1]];
      FlattenConcat(batches[..n - 1], [batches[n - 1]]);
      FlattenOne(batches[n - 1]);
      Assoc(s.h.sent, Flatten(batches[..n - 1]), batches[n - 1]);
    }
  }

  lemma FlattenEmpty()
    ensures Flatten<Queued>([]) == []
  {
  }

  lemma FlattenOne(b: seq<Queued>)
    ensures Flatten([b]) == b
  {
    assert [b][1..] == [] && b + [] == b;
  }

  lemma NextBatch(cfg: Config, s: State)
    requires cfg.Valid() && Calm(s.c) && s.c.queue == [] && s.c.phase.Sending? && s.c.phase.batches != []
    ensures var r, h := Next(cfg, s.c, Reply(Ok, 0)), Remember(cfg, s.h, s.c, Reply(Ok, 0));
            && h.recorded == s.h.recorded && h.sent == s.h.sent + s.c.phase.batches[0]
            && (s.c.phase.batches[1..] != [] ==>
                  Calm(r) && r.queue == [] && r.phase == Sending(s.c.phase.batches[1..], s.c.phase.requests + 1))
  {
    hide Flatten, Remember, Drain;
    TurnHistory(cfg, s.h, s.c, Reply(Ok, 0));
  }

  // ---------------------------------------------------------------------------
  // The request budget, exactly
  // ---------------------------------------------------------------------------

  /** One batch an entry. */
  function Singles(s: seq<Queued>): seq<seq<Queued>> { if s == [] then [] else Singles(Front(s)) + [[Last(s)]] }

  ghost predicate AllApart(s: seq<Queued>) { forall i, j | 0 <= i < j < |s| :: s[i].group != s[j].group }

  /** Entries of one resource each travel alone. */
  lemma SinglesAreBatches(s: seq<Queued>, max: nat)
    requires 0 < max && AllApart(s)
    ensures Batches(s, max) == Singles(s) && |Singles(s)| == |s|
  {
    SinglesOf(s, |s|, max);
    assert s[..|s|] == s;
  }

  lemma {:induction false} SinglesOf(s: seq<Queued>, n: nat, max: nat)
    requires 0 < max && AllApart(s) && n <= |s|
    ensures BatchesOf(s, GroupKeys(s[..n]), max) == Singles(s[..n]) && |Singles(s[..n])| == n
    decreases n
  {
    if n > 0 {
      var x := s[n - 1];
      assert Front(s[..n]) == s[..n - 1] && Last(s[..n]) == x;
      SinglesOf(s, n - 1, max);
      AloneInGroup(s, n - 1);
      KeysOf(s[..n - 1]);
      var keys := GroupKeys(s[..n - 1]);
      assert x.group !in keys;
      assert GroupKeys(s[..n]) == keys + [x.group];
      assert Front(keys + [x.group]) == keys;
    }
  }

  lemma {:induction false} KeysOf(s: seq<Queued>)
    ensures forall k | k in GroupKeys(s) :: exists i | 0 <= i < |s| :: s[i].group == k
    decreases |s|
  {
    if s != [] {
      KeysOf(Front(s));
      forall k | k in GroupKeys(s)
        ensures exists i | 0 <= i < |s| :: s[i].group == k
      {
        if k in GroupKeys(Front(s)) {
          var i :| 0 <= i < |Front(s)| && Front(s)[i].group == k;
          assert s[i].group == k;
        } else {
          assert s[|s| - 1].group == k;
        }
      }
    }
  }

  lemma AloneInGroup(s: seq<Queued>, i: nat)
    requires AllApart(s) && i < |s|
    ensures OfGroup(s, s[i].group) == [s[i]]
  {
    hide OfGroup;
    var x := s[i];
    NoneOf(s[..i], x.group);
    NoneOf(s[i + 1..], x.group);
    OneOf(x);
    assert s == s[..i] + [x] + s[i + 1..];
    OfGroupConcat(s[..i] + [x], s[i + 1..], x.group);
    OfGroupConcat(s[..i], [x], x.group);
  }

  lemma OneOf(x: Queued)
    ensures OfGroup([x], x.group) == [x]
  {
    assert Front([x]) == [];
  }

  lemma {:induction false} NoneOf(s: seq<Queued>, g: string)
    requires forall i | 0 <= i < |s| :: s[i].group != g
    ensures OfGroup(s, g) == []
    decreases |s|
  {
    if s != [] { NoneOf(Front(s), g); }
  }

  /** As many entries as wanted, each of a resource of its own. */
  function Motley(n: nat): (s: seq<Queued>)
    ensures |s| == n
  {
    seq(n, i requires 0 <= i => Item(seq(i, _ => 'g'), Load(None, Edge.WireEntry("", 0, "e", None, None))))
  }

  lemma MotleyApart(n: nat)
    ensures AllApart(Motley(n))
  {
    forall i, j | 0 <= i < j < n
      ensures Motley(n)[i].group != Motley(n)[j].group
    {
      assert |Motley(n)[i].group| == i && |Motley(n)[j].group| == j;
    }
  }

  /** No drain of any run makes more than `n` requests. */
  ghost predicate Within(cfg: Config, n: int)
    requires cfg.Valid()
  {
    forall s | Reachable(cfg, s) && s.c.phase.Sending? :: s.c.phase.requests <= n
  }

  /** The bound is exact: a drain can make `maxRequestsPerFlush - 1` requests and then a slice of them. */
  lemma BudgetIsExact(cfg: Config, n: int)
    requires cfg.Valid()
    ensures Within(cfg, n) <==> cfg.maxRequestsPerFlush - 1 + SliceBound(cfg) <= n
  {
    hide Reachable, Batches;
    var bound := cfg.maxRequestsPerFlush - 1 + SliceBound(cfg);
    if bound <= n {
      forall s | Reachable(cfg, s) && s.c.phase.Sending?
        ensures s.c.phase.requests <= n
      {
        ReachedBudget(cfg, s);
      }
    } else {
      var s := Overrun(cfg);
    }
  }

  lemma ReachedBudget(cfg: Config, s: State)
    requires cfg.Valid() && Reachable(cfg, s) && s.c.phase.Sending?
    ensures s.c.phase.requests <= cfg.maxRequestsPerFlush - 1 + SliceBound(cfg)
  {
    hide After, Inv;
    var events :| After(cfg, events) == Some(s);
    RequestBudget(cfg, events);
  }

  /** The run that uses all of it: a slice of one until the last, then a slice of entries that each travel alone. */
  lemma Overrun(cfg: Config) returns (s: State)
    requires cfg.Valid()
    ensures Reachable(cfg, s) && s.c.phase.Sending? && s.c.phase.requests == cfg.maxRequestsPerFlush - 1 + SliceBound(cfg)
  {
    hide Reachable, Batches;
    var k := SliceBound(cfg);
    MotleyApart(k);
    SinglesAreBatches(Motley(k), cfg.maxBatch);
    var t := Launch(cfg, Motley(k), cfg.maxRequestsPerFlush);
    s := Answer(cfg, t, k - 1);
  }

  /** So `maxRequestsPerFlush` is what no drain exceeds exactly where a slice can hold only one entry. */
  lemma BudgetKeptIff(cfg: Config)
    requires cfg.Valid()
    ensures Within(cfg, cfg.maxRequestsPerFlush) <==> cfg.capacity == 1 || cfg.maxEntriesPerFlush == 1
  {
    hide Within;
    BudgetIsExact(cfg, cfg.maxRequestsPerFlush);
  }

  // ---------------------------------------------------------------------------
  // First in, first out of everything
  // ---------------------------------------------------------------------------

  /** What was sent and what will be is in the order recorded, whatever the groups. */
  ghost predicate InTurn(h: History, line: seq<Queued>) { Subsequence(h.sent + line, h.recorded) }

  /** Slices too short to be reordered, of a queue within its bound. */
  predicate Short(cfg: Config, c: Client) { SliceBound(cfg) <= 2 && |c.queue| <= cfg.capacity }

  lemma DrainHeld(cfg: Config, c: Client, requests: nat, now: int)
    requires cfg.Valid() && Short(cfg, c)
    ensures Held(Drain(cfg, c, requests, now)) == c.queue
  {
    hide Flatten, Batches, Contiguous;
    var slice := Take(c.queue, cfg.maxEntriesPerFlush);
    ShortIsContiguous(slice);
    BatchesKeepOrderIff(slice, cfg.maxBatch);
    assert slice + Rest(c.queue, cfg.maxEntriesPerFlush) == c.queue;
  }

  lemma PumpHeld(cfg: Config, c: Client, t0: int, t1: int)
    requires cfg.Valid() && Short(cfg, c)
    ensures Held(Pump(cfg, c, t0, t1)) == Held(c)
  {
    hide Drain, Flatten;
    DrainHeld(cfg, c, 0, t1);
    assert [] + c.queue == c.queue;
  }

  lemma AnsweredHeld(cfg: Config, c: Client, outcome: Outcome, at: int)
    requires cfg.Valid() && Short(cfg, c) && c.phase.Sending? && c.phase.batches != [] && outcome != Transient
    ensures c.phase.batches[0] + Held(OnReply(cfg, c, outcome, at)) == Held(c)
  {
    hide Drain, OnReply, Answered;
    var first, rest := c.phase.batches[0], c.phase.batches[1..];
    AnsweredNext(cfg, c, outcome, at);
    Assoc(first, Flatten(rest), c.queue);
    if rest == [] {
      DrainHeld(cfg, Answered(c, outcome), c.phase.requests, at);
      assert Flatten(rest) + c.queue == c.queue;
    }
  }

  lemma RecordedHeld(cfg: Config, c: Client, item: Queued, severity: Option<nat>, t0: int, t1: int)
    requires cfg.Valid() && Short(cfg, c) && c.enabled
    ensures Held(OnRecord(cfg, c, item, severity, t0, t1)) == InFlight(c) + Newest(c.queue + [item], cfg.capacity)
  {
    hide Pump, Flatten;
    PumpHeld(cfg, Pushed(cfg, c, item), t0, t1);
  }

  lemma FlushedHeld(cfg: Config, c: Client, t0: int, t1: int)
    requires cfg.Valid() && Short(cfg, c)
    ensures Held(OnFlush(cfg, c, t0, t1)) == Held(c)
  {
    hide Pump, Flatten;
    PumpHeld(cfg, c.(retry := false), t0, t1);
  }

  lemma FiredHeld(cfg: Config, c: Client, timer: Timer, t0: int, t1: int)
    requires cfg.Valid() && Short(cfg, c)
    ensures Held(Pump(cfg, Disarmed(c, timer), t0, t1)) == Held(c)
  {
    hide Pump, Flatten;
    PumpHeld(cfg, Disarmed(c, timer), t0, t1);
  }

  lemma TurnCut(h: History, a: seq<Queued>, cut: seq<Queued>, b: seq<Queued>)
    requires InTurn(h, a + cut + b)
    ensures InTurn(h, a + b)
  {
    hide Subsequence;
    assert h.sent + (a + b) == h.sent + a + b;
    assert h.sent + (a + cut + b) == h.sent + a + cut + b;
    SubsequenceCut(h.sent + a, cut, b);
    SubsequenceTrans(h.sent + a + b, h.sent + a + cut + b, h.recorded);
  }

  lemma TurnGrows(h: History, line: seq<Queued>, item: Queued)
    requires InTurn(h, line)
    ensures InTurn(h.(recorded := h.recorded + [item]), line + [item])
  {
    hide Subsequence;
    Assoc(h.sent, line, [item]);
    SubsequenceAppend(h.sent + line, h.recorded, [item]);
  }

  /** An event moves the line by its history's `sent` and `recorded` only. */
  lemma TurnOf(h: History, h': History, line: seq<Queued>)
    requires InTurn(h, line) && h'.sent == h.sent && h'.recorded == h.recorded
    ensures InTurn(h', line)
  {
  }

  lemma RecordTurn(cfg: Config, c: Client, h: History, item: Queued, severity: Option<nat>, t0: int, t1: int)
    requires cfg.Valid() && Short(cfg, c) && c.enabled && InTurn(h, Held(c))
    ensures InTurn(h.(recorded := h.recorded + [item]), Held(OnRecord(cfg, c, item, severity, t0, t1)))
  {
    hide Flatten, OnRecord, InTurn, InFlight, Newest, Excess, Overflow;
    var kept, cut := Newest(c.queue + [item], cfg.capacity), Excess(cfg, c.queue + [item]);
    RecordedHeld(cfg, c, item, severity, t0, t1);
    TurnGrows(h, Held(c), item);
    CapSplits(cfg, c.queue + [item]);
    Assoc(InFlight(c), c.queue, [item]);
    Assoc(InFlight(c), cut, kept);
    TurnCut(h.(recorded := h.recorded + [item]), InFlight(c), cut, kept);
  }

  lemma AnsweredTurn(cfg: Config, c: Client, h: History, outcome: Outcome, at: int)
    requires cfg.Valid() && Short(cfg, c) && c.phase.Sending? && c.phase.batches != [] && InTurn(h, Held(c))
    requires outcome != Transient
    ensures var line, first := Held(OnReply(cfg, c, outcome, at)), c.phase.batches[0];
            InTurn(if outcome == Ok then h.(sent := h.sent + first) else h, line)
  {
    hide Flatten, Subsequence, OnReply, Held;
    var first, line := c.phase.batches[0], Held(OnReply(cfg, c, outcome, at));
    AnsweredHeld(cfg, c, outcome, at);
    Assoc(h.sent, first, line);
    assert [] + first + line == first + line && [] + line == line;
    if outcome == Permanent { TurnCut(h, [], first, line); }
  }

  lemma FailedTurn(cfg: Config, c: Client, h: History, at: int)
    requires c.phase.Sending? && InTurn(h, Held(c))
    ensures InTurn(h, Held(Failed(cfg, c, at)))
  {
    hide Flatten, Failed, Held, InFlight, Excess, InTurn;
    var line := Held(Failed(cfg, c, at));
    var gone := if c.attempt >= cfg.maxRetries then InFlight(c) else Excess(cfg, Held(c));
    FailedLine(cfg, c, at);
    assert [] + gone + line == Held(c) && [] + line == line;
    TurnCut(h, [], gone, line);
  }

  lemma CloseTurn(cfg: Config, c: Client, h: History)
    requires InTurn(h, Held(c))
    ensures InTurn(h, Held(OnCloseEnd(cfg, c)))
  {
    hide Flatten, InTurn;
    assert InFlight(c) + c.queue + [] == Held(c) && InFlight(c) + [] == Held(OnCloseEnd(cfg, c));
    TurnCut(h, InFlight(c), c.queue, []);
  }

  lemma StepTurn(cfg: Config, s: State, e: Event)
    requires cfg.Valid() && !cfg.disk && Short(cfg, s.c) && Possible(cfg, s.c, e) && InTurn(s.h, Held(s.c))
    ensures InTurn(Remember(cfg, s.h, s.c, e), Held(Next(cfg, s.c, e)))
  {
    hide Remember, Held, InTurn, Pump, Disarmed, OnRecord, OnReply, OnFlush, OnCloseEnd;
    var State(c, h) := s;
    var h' := Remember(cfg, h, c, e);
    TurnHistory(cfg, h, c, e);
    match e
    case Record(item, severity, t0, t1) =>
      if c.enabled {
        RecordTurn(cfg, c, h, item, severity, t0, t1);
        TurnOf(h.(recorded := h.recorded + [item]), h', Held(Next(cfg, c, e)));
      } else {
        OnDisabled(cfg, c, item, severity, t0, t1);
        TurnOf(h, h', Held(c));
      }
    case Reply(outcome, at) =>
      if outcome == Transient { FailedTurn(cfg, c, h, at); NextFailed(cfg, c, at); } else { AnsweredTurn(cfg, c, h, outcome, at); }
      TurnOf(if outcome == Ok then h.(sent := h.sent + c.phase.batches[0]) else h, h', Held(Next(cfg, c, e)));
    case Fires(timer, t0, t1) => FiredHeld(cfg, c, timer, t0, t1); TurnOf(h, h', Held(c));
    case FlushCall(t0, t1) => FlushedHeld(cfg, c, t0, t1); TurnOf(h, h', Held(c));
    case CloseEnd => CloseTurn(cfg, c, h); TurnOf(h, h', Held(Next(cfg, c, e)));
    case _ => QuietLine(cfg, c, e); TurnOf(h, h', Held(c));
  }

  lemma NextFailed(cfg: Config, c: Client, at: int)
    requires cfg.Valid() && c.phase.Sending? && c.phase.batches != []
    ensures OnReply(cfg, c, Transient, at) == Failed(cfg, c, at)
  {
    hide Failed;
  }

  lemma {:induction false} RunTurn(cfg: Config, events: seq<Event>)
    requires cfg.Valid() && !cfg.disk && SliceBound(cfg) <= 2 && After(cfg, events).Some?
    ensures InTurn(After(cfg, events).value.h, Held(After(cfg, events).value.c))
    decreases |events|
  {
    hide Next, Remember, InTurn, Held, Places, Counted, Probes, Awake;
    if events == [] {
      StartTurn(cfg);
    } else {
      RunTurn(cfg, Front(events));
      RunInv(cfg, Front(events));
      StepTurn(cfg, After(cfg, Front(events)).value, Last(events));
    }
  }

  lemma StartTurn(cfg: Config)
    ensures InTurn(NOTHING_YET, Held(Initial(cfg)))
  {
  }

  lemma {:induction false} SubsequenceLength<T(!new)>(s: seq<T>, t: seq<T>)
    requires Subsequence(s, t)
    ensures |s| <= |t| && (|s| == |t| ==> s == t)
    decreases |t|
  {
    if s != [] {
      if Last(s) == Last(t) && Subsequence(Front(s), Front(t)) {
        SubsequenceLength(Front(s), Front(t));
        assert s == Front(s) + [Last(s)] && t == Front(t) + [Last(t)];
      } else {
        SubsequenceLength(s, Front(t));
      }
    }
  }

  /** Everything any run sends goes out in the order recorded. */
  ghost predicate Fifo(cfg: Config)
    requires cfg.Valid()
  {
    forall s | Reachable(cfg, s) :: Subsequence(s.h.sent, s.h.recorded)
  }

  /** With a memory store, first in, first out of everything, exactly where no slice can hold three entries. */
  lemma FifoIff(cfg: Config)
    requires cfg.Valid() && !cfg.disk
    ensures Fifo(cfg) <==> cfg.capacity <= 2 || cfg.maxEntriesPerFlush <= 2
  {
    hide Reachable, Subsequence;
    if SliceBound(cfg) <= 2 {
      forall s | Reachable(cfg, s)
        ensures Subsequence(s.h.sent, s.h.recorded)
      {
        ReachedTurn(cfg, s);
      }
    } else {
      var s := OutOfTurn(cfg);
    }
  }

  lemma ReachedTurn(cfg: Config, s: State)
    requires cfg.Valid() && !cfg.disk && SliceBound(cfg) <= 2 && Reachable(cfg, s)
    ensures Subsequence(s.h.sent, s.h.recorded)
  {
    hide After, Subsequence;
    var events :| After(cfg, events) == Some(s);
    RunTurn(cfg, events);
    var line := Held(s.c);
    SubsequenceCut(s.h.sent, line, []);
    assert s.h.sent + [] == s.h.sent && s.h.sent + line + [] == s.h.sent + line;
    SubsequenceTrans(s.h.sent, s.h.sent + line, s.h.recorded);
  }

  /** Three entries in one slice, the first and the last of one resource: the last overtakes the second. */
  lemma OutOfTurn(cfg: Config) returns (s: State)
    requires cfg.Valid() && SliceBound(cfg) >= 3
    ensures Reachable(cfg, s) && !Subsequence(s.h.sent, s.h.recorded)
  {
    hide Reachable, Batches, Flatten, Subsequence, Contiguous, SliceBound, Motley, Calm;
    var xs := [Motley(2)[0], Motley(2)[1], Motley(2)[0]];
    Interleaved(xs);
    var t := FirstSlice(cfg, xs);
    var batches := Batches(xs, cfg.maxBatch);
    s := Answer(cfg, t, |batches|);
    assert batches[..|batches|] == batches && [] + Flatten(batches) == Flatten(batches);
    BatchesLength(xs, cfg.maxBatch);
    BatchesKeepOrderIff(xs, cfg.maxBatch);
    if Subsequence(s.h.sent, s.h.recorded) { SubsequenceLength(s.h.sent, s.h.recorded); }
  }

  lemma BatchesLength(s: seq<Queued>, max: nat)
    requires 0 < max
    ensures |Flatten(Batches(s, max))| == |s|
  {
    hide Batches, Flatten;
    BatchesKeepContents(s, max);
    assert |multiset(Flatten(Batches(s, max)))| == |multiset(s)|;
  }

  lemma Interleaved(xs: seq<Queued>)
    requires xs == [Motley(2)[0], Motley(2)[1], Motley(2)[0]]
    ensures !Contiguous(xs)
  {
    MotleyApart(2);
    assert xs[0].group == xs[2].group != xs[1].group;
  }

  /** A slice flushed and refused comes back in the order it was grouped in, which is its own exactly where groups stood together. */
  lemma RequeueIsGrouped(cfg: Config, c: Client, t0: int, t1: int, at: int)
    requires cfg.Valid() && c.phase.Idle? && 0 < |c.queue| <= cfg.capacity && t0 <= t1 && c.attempt < cfg.maxRetries
    requires B.RetryAfter(c.breaker, cfg.threshold, cfg.resetMs, t0) == 0
    ensures var slice, rest := Take(c.queue, cfg.maxEntriesPerFlush), Rest(c.queue, cfg.maxEntriesPerFlush);
            var sent := Next(cfg, c, FlushCall(t0, t1));
            && sent.phase.Sending? && sent.phase.batches != []
            && Next(cfg, sent, Reply(Transient, at)).queue == Flatten(Batches(slice, cfg.maxBatch)) + rest
            && (Next(cfg, sent, Reply(Transient, at)).queue == c.queue <==> Contiguous(slice))
  {
    hide Batches, Flatten, Contiguous, Pump, Take, Rest, B.OnFailure;
    var slice, rest := Take(c.queue, cfg.maxEntriesPerFlush), Rest(c.queue, cfg.maxEntriesPerFlush);
    SliceParts(c.queue, cfg.maxEntriesPerFlush);
    PumpSends(cfg, c.(retry := false), t0, t1);
    var sent := Next(cfg, c, FlushCall(t0, t1));
    BatchesProper(slice, cfg.maxBatch);
    BatchesLength(slice, cfg.maxBatch);
    BatchesKeepOrderIff(slice, cfg.maxBatch);
    var back := Flatten(sent.phase.batches);
    NextFailed(cfg, sent, at);
    assert Newest(back + rest, cfg.capacity) == back + rest;
    assert (back + rest)[..|slice|] == back && (slice + rest)[..|slice|] == slice;
  }

  lemma SliceParts(queue: seq<Queued>, n: nat)
    requires 0 < n && queue != []
    ensures Take(queue, n) + Rest(queue, n) == queue && Take(queue, n) != []
  {
  }
}
