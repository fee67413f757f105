/** What a wakeup comes to when the server answers: the drain it starts ends, and leaves nothing or has used its budget. */
module DeliveryProgress {
  import opened Sequences
  import opened Grouping
  import opened Delivery
  import opened DeliveryRuns
  import B = Breakers

  function Replies(events: seq<Event>): nat {
    if events == [] then 0 else (if events[0].Reply? then 1 else 0) + Replies(events[1..])
  }

  /** Every request is answered, if only by a refusal. */
  predicate Answering(events: seq<Event>) { forall e | e in events :: e.Reply? ==> e.outcome != Transient }

  /** A drain ended because nothing was left, or because its budget was used up, in which case a retry is armed. */
  predicate EndedWell(cfg: Config, before: Client, after: Client) {
    && before.phase.Sending? && after.phase.Ended?
    && (after.queue == [] || (before.phase.requests >= cfg.maxRequestsPerFlush && after.retry))
  }

  /** The most requests a drain can make. */
  function Most(cfg: Config): int { cfg.maxRequestsPerFlush - 1 + SliceBound(cfg) }

  /** An answer closes the breaker, so what ends the drain then is the queue or the budget. */
  lemma AnsweredDrain(cfg: Config, c: Client, requests: nat, now: int)
    requires cfg.Valid() && !BreakerOpen(cfg, c)
    ensures var d := Drain(cfg, c, requests, now);
            if c.queue == [] then d == c.(phase := Ended)
            else if requests >= cfg.maxRequestsPerFlush then d == c.(retry := true, phase := Ended)
            else d.phase.Sending? && d.phase.requests == requests + 1
  {
  }

  lemma AnsweredStep(cfg: Config, c: Client, outcome: Outcome, at: int)
    requires cfg.Valid() && c.phase.Sending? && c.phase.batches != [] && outcome != Transient
    ensures var c' := Next(cfg, c, Reply(outcome, at));
            EndedWell(cfg, c, c') || (c'.phase.Sending? && c'.phase.requests == c.phase.requests + 1)
  {
    hide OnReply, Answered, Drain;
    AnsweredNext(cfg, c, outcome, at);
    if c.phase.batches[1..] == [] { AnsweredDrain(cfg, Answered(c, outcome), c.phase.requests, at); }
  }

  /**
   * However its caller goes on meanwhile, a drain whose requests are all answered
   * ends well by the time it has made as many as a drain can make.
   */
  lemma {:induction false} DrainEnds(cfg: Config, events: seq<Event>, more: seq<Event>) returns (k: nat)
    requires cfg.Valid() && After(cfg, events + more).Some? && Answering(more)
    requires After(cfg, events).Some? && After(cfg, events).value.c.phase.Sending?
    requires After(cfg, events).value.c.phase.requests + Replies(more) > Most(cfg)
    ensures k < |more| && After(cfg, events + more[..k]).Some? && After(cfg, events + more[..k + 1]).Some?
    ensures EndedWell(cfg, After(cfg, events + more[..k]).value.c, After(cfg, events + more[..k + 1]).value.c)
    decreases |more|
  {
    hide After, Next, Remember, EndedWell, Possible;
    var c := After(cfg, events).value.c;
    RequestBudget(cfg, events);
    var e, rest := more[0], more[1..];
    assert more == [e] + rest && more[..0] == [] && more[..1] == [e];
    assert events + more == events + [e] + rest && events + [] == events;
    AfterPrefix(cfg, events + [e], rest);
    Stepped(cfg, events, e);
    DrainAdvances(cfg, c, e);
    if e.Reply? { AnsweredStep(cfg, c, e.outcome, e.at); }
    if e.Reply? && EndedWell(cfg, c, Next(cfg, c, e)) {
      k := 0;
    } else {
      var j := DrainEnds(cfg, events + [e], rest);
      k := j + 1;
      assert more[..k] == [e] + rest[..j] && more[..k + 1] == [e] + rest[..j + 1];
      assert events + more[..k] == events + [e] + rest[..j];
      assert events + more[..k + 1] == events + [e] + rest[..j + 1];
    }
  }

  /** The last event of a run was possible and led to its client. */
  lemma Stepped(cfg: Config, events: seq<Event>, e: Event)
    requires cfg.Valid() && After(cfg, events + [e]).Some? && After(cfg, events).Some?
    ensures var c := After(cfg, events).value.c;
            Possible(cfg, c, e) && After(cfg, events + [e]).value.c == Next(cfg, c, e)
  {
    hide Next, Remember, Possible;
    assert Front(events + [e]) == events && Last(events + [e]) == e;
  }

  /** A timeout that has fired is gone; an interval stays. */
  predicate Spent(timer: Timer, c: Client) {
    match timer case Every => c.interval case Backoff => !c.retry case Window => !c.coalesce
  }

  /**
   * An armed timer that fires on an idle client with something queued and a
   * breaker that lets it send puts a request out; and once that drain has had
   * its answers, the queue is empty or the budget is used up and a retry armed.
   */
  lemma WakeupProgresses(cfg: Config, events: seq<Event>, timer: Timer, t0: int, t1: int, more: seq<Event>) returns (k: nat)
    requires cfg.Valid() && After(cfg, events).Some? && t0 <= t1
    requires var c := After(cfg, events).value.c;
             && c.phase.Idle? && c.queue != [] && Armed(c, timer)
             && B.RetryAfter(c.breaker, cfg.threshold, cfg.resetMs, t0) == 0
    requires var run := events + [Fires(timer, t0, t1)];
             After(cfg, run + more).Some? && Answering(more) && Replies(more) >= Most(cfg)
    ensures var run := events + [Fires(timer, t0, t1)];
            && After(cfg, run).Some? && After(cfg, run).value.c.phase.Sending? && Spent(timer, After(cfg, run).value.c)
            && k < |more| && After(cfg, run + more[..k]).Some? && After(cfg, run + more[..k + 1]).Some?
            && EndedWell(cfg, After(cfg, run + more[..k]).value.c, After(cfg, run + more[..k + 1]).value.c)
  {
    hide After, Next, Remember, EndedWell, Replies, Batches;
    var c, fire := After(cfg, events).value.c, Fires(timer, t0, t1);
    AfterPrefix(cfg, events + [fire], more);
    Stepped(cfg, events, fire);
    FiringSends(cfg, c, timer, t0, t1);
    k := DrainEnds(cfg, events + [fire], more);
  }

  lemma FiringSends(cfg: Config, c: Client, timer: Timer, t0: int, t1: int)
    requires cfg.Valid() && Possible(cfg, c, Fires(timer, t0, t1)) && c.phase.Idle? && c.queue != [] && t0 <= t1
    requires B.RetryAfter(c.breaker, cfg.threshold, cfg.resetMs, t0) == 0
    ensures var p := Next(cfg, c, Fires(timer, t0, t1));
            && p.phase.Sending? && p.phase.requests == 1
            && (timer.Backoff? ==> !p.retry) && (timer.Window? ==> !p.coalesce) && p.interval == c.interval
  {
    hide Pump, Batches;
    PumpSends(cfg, Disarmed(c, timer), t0, t1);
  }
}
