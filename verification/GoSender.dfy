/**
 * The Go client's sender goroutine: it owns the backlog, the breaker, the
 * durable mirror and every request. A ghost ledger says where each entry it
 * ever took in has gone.
 */
module GoSender {
  import opened Sequences
  import opened Grouping
  import opened Queues
  import opened DiskQueues
  import B = Breakers

  datatype Outcome = Ok | Permanent | Transient

  /**
   * What the world does for one try: the clock when the budget is checked, the
   * answer, the clock after it, and whether the backoff after it ran to its end.
   */
  datatype Reply = Reply(asked: int, outcome: Outcome, at: int, woke: bool)

  const SILENCE := Reply(0, Transient, 0, false)

  // ---------------------------------------------------------------------------
  // One batch
  // ---------------------------------------------------------------------------

  /** A request as it went out, and whether the breaker was open then. */
  datatype Probe = Probe(at: int, open: bool)

  datatype Tried = Tried(outcome: Outcome, breaker: B.State, failed: nat, rest: seq<Reply>, probes: seq<Probe>)

  function Head(net: seq<Reply>): Reply { if net == [] then SILENCE else net[0] }

  function Tail(net: seq<Reply>): seq<Reply> { if net == [] then [] else net[1..] }

  function Spent(deadline: Option<int>, r: Reply): bool { deadline.Some? && r.asked >= deadline.value }

  /** `attempt` from its `try`-th turn. */
  function Attempted(threshold: nat, retries: nat, deadline: Option<int>, b: B.State, net: seq<Reply>, try: nat): Tried
    requires try <= retries
    decreases retries - try
  {
    var r := Head(net);
    if Spent(deadline, r) then Tried(Transient, b, 0, Tail(net), [])
    else
      var probe := Probe(r.asked, B.IsOpen(b, threshold));
      match r.outcome
      case Ok => Tried(Ok, B.OnSuccess(b), 0, Tail(net), [probe])
      case Permanent => Tried(Permanent, B.OnSuccess(b), 1, Tail(net), [probe])
      case Transient =>
        var failed := B.OnFailure(b, threshold, r.at);
        if try >= retries || !r.woke then Tried(Transient, failed, 1, Tail(net), [probe])
        else
          var more := Attempted(threshold, retries, deadline, failed, Tail(net), try + 1);
          more.(failed := more.failed + 1, probes := [probe] + more.probes)
  }

  /** A batch costs at most one request more than the retries allow, and is given back only if none was answered. */
  lemma {:induction false} AttemptBound(threshold: nat, retries: nat, deadline: Option<int>, b: B.State,
                                        net: seq<Reply>, try: nat)
    requires try <= retries
    ensures var t := Attempted(threshold, retries, deadline, b, net, try);
            && |t.probes| <= retries - try + 1
            && t.failed == |t.probes| - (if t.outcome == Ok then 1 else 0)
            && (t.outcome != Transient ==> t.breaker.failures == 0 && !t.breaker.probing && t.probes != [])
            && (t.outcome == Transient ==> t.breaker.failures == b.failures + |t.probes|)
    decreases retries - try
  {
    var r := Head(net);
    if !Spent(deadline, r) && r.outcome == Transient && try < retries && r.woke {
      AttemptBound(threshold, retries, deadline, B.OnFailure(b, threshold, r.at), Tail(net), try + 1);
    }
  }

  /** The i-th reply from here; past the end of what was foreseen nothing answers. */
  function Nth(net: seq<Reply>, i: nat): Reply { if i < |net| then net[i] else SILENCE }

  function Skip(net: seq<Reply>, n: nat): seq<Reply> { net[Min(n, |net|)..] }

  /** How the last of so many requests was answered; where none was made, nothing was answered. */
  function AnswerTo(net: seq<Reply>, asked: nat): Outcome { if asked == 0 then Transient else Nth(net, asked - 1).outcome }

  /**
   * A batch ends as its last request was answered, every request before that was
   * left without an answer, and the batch after it finds the replies that follow,
   * less the one turn on which the budget turned out to be spent.
   */
  lemma {:induction false} AttemptAnswer(threshold: nat, retries: nat, deadline: Option<int>, b: B.State,
                                         net: seq<Reply>, try: nat)
    requires try <= retries
    ensures var t := Attempted(threshold, retries, deadline, b, net, try);
            && t.outcome == AnswerTo(net, |t.probes|)
            && (forall i | 0 <= i < |t.probes| - 1 :: Nth(net, i).outcome == Transient && Nth(net, i).woke)
            && (t.rest == Skip(net, |t.probes|) ||
                (Spent(deadline, Nth(net, |t.probes|)) && t.rest == Skip(net, |t.probes| + 1)))
    decreases retries - try
  {
    var r, t := Head(net), Attempted(threshold, retries, deadline, b, net, try);
    if !Spent(deadline, r) && r.outcome == Transient && try < retries && r.woke {
      var failed := B.OnFailure(b, threshold, r.at);
      AttemptAnswer(threshold, retries, deadline, failed, Tail(net), try + 1);
      var more := Attempted(threshold, retries, deadline, failed, Tail(net), try + 1);
      AnswersShift(net, more.probes, t.probes);
    }
  }

  lemma AnswersShift(net: seq<Reply>, probes: seq<Probe>, all: seq<Probe>)
    requires |all| == |probes| + 1 && Head(net).outcome == Transient && Head(net).woke
    requires forall i | 0 <= i < |probes| - 1 :: Nth(Tail(net), i).outcome == Transient && Nth(Tail(net), i).woke
    ensures forall i | 0 <= i < |all| - 1 :: Nth(net, i).outcome == Transient && Nth(net, i).woke
    ensures AnswerTo(net, |all|) == AnswerTo(Tail(net), |probes|)
    ensures Skip(net, |all|) == Skip(Tail(net), |probes|) && Skip(net, |all| + 1) == Skip(Tail(net), |probes| + 1)
    ensures Nth(net, |all|) == Nth(Tail(net), |probes|)
  {
    SkipTail(net, |probes|);
    SkipTail(net, |probes| + 1);
    hide Skip;
    forall i | 0 <= i < |all| - 1
      ensures Nth(net, i).outcome == Transient && Nth(net, i).woke
    {
      if i > 0 { SkipTail(net, i - 1); }
    }
  }

  lemma SkipTail(net: seq<Reply>, n: nat)
    ensures Skip(Tail(net), n) == Skip(net, n + 1)
    ensures Nth(Tail(net), n) == Nth(net, n + 1)
  {
  }

  /** Outside shutdown a batch costs at least one request. */
  lemma AttemptAsks(threshold: nat, retries: nat, deadline: Option<int>, b: B.State, net: seq<Reply>)
    ensures deadline.None? ==> Attempted(threshold, retries, deadline, b, net, 0).probes != []
  {
  }

  /** The i-th of these went out under a breaker that had seen `failures + i` failures. */
  ghost predicate OpenFrom(probes: seq<Probe>, failures: nat, threshold: nat) {
    forall i | 0 <= i < |probes| :: probes[i].open <==> failures + i >= threshold
  }

  lemma OpenCons(probe: Probe, probes: seq<Probe>, failures: nat, threshold: nat)
    requires OpenFrom(probes, failures + 1, threshold) && (probe.open <==> failures >= threshold)
    ensures OpenFrom([probe] + probes, failures, threshold)
  {
    forall i | 0 < i < |[probe] + probes|
      ensures ([probe] + probes)[i].open <==> failures + i >= threshold
    {
      assert probes[i - 1].open <==> failures + 1 + (i - 1) >= threshold;
    }
  }

  /** Each try goes out under the breaker the tries before it left. */
  lemma {:induction false} ProbeOpenIff(threshold: nat, retries: nat, deadline: Option<int>, b: B.State,
                                        net: seq<Reply>, try: nat)
    requires try <= retries
    ensures OpenFrom(Attempted(threshold, retries, deadline, b, net, try).probes, b.failures, threshold)
    decreases retries - try
  {
    var r := Head(net);
    if !Spent(deadline, r) && r.outcome == Transient && try < retries && r.woke {
      hide OpenFrom;
      var failed := B.OnFailure(b, threshold, r.at);
      ProbeOpenIff(threshold, retries, deadline, failed, Tail(net), try + 1);
      OpenCons(Probe(r.asked, B.IsOpen(b, threshold)),
               Attempted(threshold, retries, deadline, failed, Tail(net), try + 1).probes, b.failures, threshold);
    }
  }

  /** A network that answers nothing, in time for any deadline. */
  function Dead(deadline: Option<int>): Reply { Reply(if deadline.Some? then deadline.value - 1 else 0, Transient, 0, true) }

  lemma {:induction false} DeadTries(threshold: nat, retries: nat, deadline: Option<int>, b: B.State, n: nat, try: nat)
    requires try <= retries && n == retries - try + 1
    ensures |Attempted(threshold, retries, deadline, b, seq(n, _ => Dead(deadline)), try).probes| == n
    decreases n
  {
    var net := seq(n, _ => Dead(deadline));
    assert net[0] == Dead(deadline) && Tail(net) == seq(n - 1, _ => Dead(deadline));
    if try < retries { DeadTries(threshold, retries, deadline, B.OnFailure(b, threshold, 0), n - 1, try + 1); }
  }

  /** No try from the `first`-th on goes out while the breaker is open, whatever the network does. */
  ghost predicate NeverOpen(threshold: nat, retries: nat, deadline: Option<int>, b: B.State, first: nat) {
    forall net, i | first <= i < |Attempted(threshold, retries, deadline, b, net, 0).probes| ::
      !Attempted(threshold, retries, deadline, b, net, 0).probes[i].open
  }

  /**
   * The breaker is asked once before the batches and never between tries, so a
   * batch keeps to it exactly where its retries cannot open it: where they can,
   * a failure that opens it is followed by another request, whatever the cooldown.
   */
  lemma RetriesKeepToBreakerIff(threshold: nat, retries: nat, deadline: Option<int>, b: B.State, first: nat)
    requires first <= retries
    ensures NeverOpen(threshold, retries, deadline, b, first) <==> b.failures + retries < threshold
  {
    if b.failures + retries < threshold {
      forall net, i | first <= i < |Attempted(threshold, retries, deadline, b, net, 0).probes|
        ensures !Attempted(threshold, retries, deadline, b, net, 0).probes[i].open
      {
        AttemptBound(threshold, retries, deadline, b, net, 0);
        ProbeOpenIff(threshold, retries, deadline, b, net, 0);
      }
    } else {
      var net := seq(retries + 1, _ => Dead(deadline));
      DeadTries(threshold, retries, deadline, b, retries + 1, 0);
      ProbeOpenIff(threshold, retries, deadline, b, net, 0);
      assert Attempted(threshold, retries, deadline, b, net, 0).probes[retries].open;
    }
  }

  /** One failure opens the breaker, one millisecond passes, and the retry goes out. */
  lemma RetriesIgnoreBreaker(resetMs: nat)
    requires resetMs > 1
    ensures var net := [Reply(0, Transient, 0, true), Reply(1, Ok, 1, true)];
            var t := Attempted(1, 1, None, B.CLOSED, net, 0);
            && t.probes == [Probe(0, false), Probe(1, true)]
            && !B.Allow(B.OnFailure(B.CLOSED, 1, 0), 1, resetMs, 1).0
  {
    var net := [Reply(0, Transient, 0, true), Reply(1, Ok, 1, true)];
    assert Tail(net) == [Reply(1, Ok, 1, true)];
    var failed := B.OnFailure(B.CLOSED, 1, 0);
    assert Attempted(1, 1, None, failed, Tail(net), 1).probes == [Probe(1, true)];
  }

  // ---------------------------------------------------------------------------
  // What becomes of the batches
  // ---------------------------------------------------------------------------

  /** The knobs of one pass over the batches. */
  datatype Limits = Limits(threshold: nat, retries: nat, deadline: Option<int>)

  /** How each of n batches, one after the other, had its last request answered, up to the first that went unanswered. */
  function Verdicts(limits: Limits, b: B.State, net: seq<Reply>, n: nat): (v: seq<Outcome>)
    ensures |v| <= n && (n > 0 ==> v != [])
    ensures forall i | 0 <= i < |v| - 1 :: v[i] != Transient
    ensures |v| == n || (v != [] && Last(v) == Transient)
    decreases n
  {
    if n == 0 then []
    else
      var t := Attempted(limits.threshold, limits.retries, limits.deadline, b, net, 0);
      var o := AnswerTo(net, |t.probes|);
      if o == Transient then [o] else [o] + Verdicts(limits, t.breaker, t.rest, n - 1)
  }

  /** How many were answered. */
  function Answered(v: seq<Outcome>): (n: nat)
    ensures n <= |v|
  {
    if v != [] && Last(v) == Transient then |v| - 1 else |v|
  }

  /** The entries of the batches that were answered in this way, in order. */
  function Going<T>(batches: seq<seq<T>>, v: seq<Outcome>, o: Outcome): seq<T> {
    if batches == [] || v == [] then []
    else (if v[0] == o then batches[0] else []) + Going(batches[1..], v[1..], o)
  }

  /** Batches whose turn never came, or that this pass ended on, stay. */
  function Staying<T>(batches: seq<seq<T>>, v: seq<Outcome>): seq<seq<T>> { batches[Min(Answered(v), |batches|)..] }

  lemma StayingFrom<T>(batches: seq<seq<T>>, v: seq<Outcome>)
    requires |v| <= |batches|
    ensures Staying(batches, v) == batches[Answered(v)..]
  {
  }

  lemma VerdictsStep(limits: Limits, b: B.State, net: seq<Reply>, n: nat)
    requires n > 0
    ensures var t := Attempted(limits.threshold, limits.retries, limits.deadline, b, net, 0);
            var o, v := AnswerTo(net, |t.probes|), Verdicts(limits, b, net, n);
            && v[0] == o && (o == Transient <==> Answered(v) == 0)
            && (o != Transient ==>
                  var more := Verdicts(limits, t.breaker, t.rest, n - 1);
                  v[1..] == more && Answered(v) == 1 + Answered(more))
  {
    hide Attempted;
    var t := Attempted(limits.threshold, limits.retries, limits.deadline, b, net, 0);
    if AnswerTo(net, |t.probes|) != Transient && n > 1 {
      var v, more := Verdicts(limits, b, net, n), Verdicts(limits, t.breaker, t.rest, n - 1);
      assert more != [] && Last(v) == Last(more);
    }
  }

  /** What has gone in this way and what is to go from the i-th batch on. */
  function Onward<T>(had: seq<T>, batches: seq<seq<T>>, v: seq<Outcome>, i: nat, o: Outcome): seq<T>
    requires i <= |v| <= |batches|
  {
    had + Going(batches[i..], v[i..], o)
  }

  /** One batch further on: what was to go from here is this batch's part and what is to go from the next. */
  lemma GoingStep<T>(batches: seq<seq<T>>, v: seq<Outcome>, i: nat, had: seq<T>, o: Outcome)
    requires i < |v| <= |batches|
    ensures Onward(had, batches, v, i, o) == Onward(had + if v[i] == o then batches[i] else [], batches, v, i + 1, o)
  {
    assert batches[i..][1..] == batches[i + 1..] && v[i..][1..] == v[i + 1..];
    Assoc(had, if v[i] == o then batches[i] else [], Going(batches[i + 1..], v[i + 1..], o));
  }

  lemma OnwardEnds<T>(had: seq<T>, batches: seq<seq<T>>, v: seq<Outcome>, i: nat, o: Outcome)
    requires i <= |v| <= |batches|
    ensures i == 0 ==> Onward(had, batches, v, i, o) == had + Going(batches, v, o)
    ensures i == |v| ==> Onward(had, batches, v, i, o) == had
  {
    assert batches[0..] == batches && v[0..] == v;
  }

  /** The first n replies are all a yes. */
  predicate AllYes(net: seq<Reply>, n: nat) { n <= |net| && forall i | 0 <= i < n :: net[i].outcome == Ok }

  lemma AllYesTail(net: seq<Reply>, n: nat)
    requires n > 0 && AllYes(net, n)
    ensures net[0].outcome == Ok && AllYes(net[1..], n - 1)
  {
  }

  lemma TakenAtOnce(limits: Limits, b: B.State, net: seq<Reply>)
    requires limits.deadline.None? && net != [] && net[0].outcome == Ok
    ensures var t := Attempted(limits.threshold, limits.retries, limits.deadline, b, net, 0);
            |t.probes| == 1 && t.rest == net[1..] && AnswerTo(net, |t.probes|) == Ok
  {
  }

  lemma GoingTaken<T>(batches: seq<seq<T>>, v: seq<Outcome>)
    requires batches != [] && v != [] && v[0] == Ok
    requires Going(batches[1..], v[1..], Ok) == Flatten(batches[1..]) && Going(batches[1..], v[1..], Permanent) == []
    ensures Going(batches, v, Ok) == Flatten(batches) && Going(batches, v, Permanent) == []
  {
  }

  /** With a server that takes everything, everything goes. */
  lemma {:induction false} AllTaken<T>(limits: Limits, b: B.State, net: seq<Reply>, batches: seq<seq<T>>)
    requires limits.deadline.None? && AllYes(net, |batches|)
    ensures var v := Verdicts(limits, b, net, |batches|);
            && Going(batches, v, Ok) == Flatten(batches) && Going(batches, v, Permanent) == []
            && Answered(v) == |batches|
    decreases |batches|
  {
    if batches != [] {
      AllYesTail(net, |batches|);
      hide Attempted, AnswerTo, Verdicts, Going, Flatten, Answered, AllYes;
      var t := Attempted(limits.threshold, limits.retries, limits.deadline, b, net, 0);
      var v := Verdicts(limits, b, net, |batches|);
      TakenAtOnce(limits, b, net);
      VerdictsStep(limits, b, net, |batches|);
      AllTaken(limits, t.breaker, t.rest, batches[1..]);
      GoingTaken(batches, v);
    }
  }

  // ---------------------------------------------------------------------------
  // Wakeups
  // ---------------------------------------------------------------------------

  /** What decides when the sender may try: the base delay, and the breaker's two knobs. */
  datatype Pace = Pace(base: nat, threshold: nat, resetMs: nat)

  /** It is too early for this wakeup, or the breaker is against it. */
  predicate Refused(p: Pace, next: Option<int>, b: B.State, now: int) {
    (next.Some? && now < next.value) || !B.Allow(b, p.threshold, p.resetMs, now).0
  }

  /** When a hold-off that begins now is over: after the base delay, or the cooldown if that is longer. */
  function HeldUntil(p: Pace, b: B.State, now: int): int { now + Max(p.base, B.GoRetryAfter(b, p.threshold, p.resetMs, now)) }

  /** What a run of refused wakeups leaves to wait for. */
  function WaitLeft(p: Pace, next: Option<int>, b: B.State, times: seq<int>): Option<int> {
    if times == [] then next else Some(HeldUntil(p, b, Last(times)))
  }

  /** Every wakeup comes before the moment the one before it left, or meets a breaker that says no. */
  predicate AllRefused(p: Pace, next: Option<int>, b: B.State, times: seq<int>) {
    times == [] || (AllRefused(p, next, b, Front(times)) && Refused(p, WaitLeft(p, next, b, Front(times)), b, Last(times)))
  }

  lemma RefusedAgain(p: Pace, b: B.State, now: int, later: int)
    ensures Refused(p, Some(HeldUntil(p, b, now)), b, later) <==> later - now < p.base || !B.Allow(b, p.threshold, p.resetMs, later).0
  {
  }

  /**
   * A refused wakeup starts the wait again, so after one refusal nothing goes out
   * exactly as long as every wakeup comes within the base delay of the one before
   * it, or meets the breaker: a busy client whose breaker is closed never sends.
   */
  lemma {:induction false} StarvesIff(p: Pace, next: Option<int>, b: B.State, times: seq<int>)
    ensures AllRefused(p, next, b, times) <==>
            && (times != [] ==> Refused(p, next, b, times[0]))
            && forall i | 1 <= i < |times| ::
                 times[i] - times[i - 1] < p.base || !B.Allow(b, p.threshold, p.resetMs, times[i]).0
    decreases |times|
  {
    if times != [] {
      var before := Front(times);
      StarvesIff(p, next, b, before);
      hide Refused, HeldUntil, B.Allow;
      assert forall i | 0 <= i < |before| :: before[i] == times[i];
      if before != [] {
        RefusedAgain(p, b, Last(before), Last(times));
        assert Last(before) == times[|times| - 2];
      }
    }
  }

  // ---------------------------------------------------------------------------
  // The ledger
  // ---------------------------------------------------------------------------

  /** Everything taken in, in order; everything sent, in order; everything thrown away. */
  datatype Ledger<W> = Ledger(taken: seq<Item<W>>, sent: seq<Item<W>>, lost: seq<Item<W>>)

  /** Every entry taken is sent, waiting or lost, once; and per group what was sent and waits keeps the order taken. */
  ghost predicate Kept<W(!new)>(l: Ledger<W>, pending: seq<Item<W>>) {
    && multiset(l.taken) == multiset(l.sent) + multiset(pending) + multiset(l.lost)
    && forall g :: Subsequence(OfGroup(l.sent + pending, g), OfGroup(l.taken, g))
  }

  lemma ArriveKept<W(!new)>(l: Ledger<W>, pending: seq<Item<W>>, xs: seq<Item<W>>)
    requires Kept(l, pending)
    ensures Kept(l.(taken := l.taken + xs), pending + xs)
  {
    hide OfGroup, Subsequence;
    assert multiset(l.taken + xs) == multiset(l.taken) + multiset(xs);
    assert multiset(pending + xs) == multiset(pending) + multiset(xs);
    Assoc(l.sent, pending, xs);
    forall g
      ensures Subsequence(OfGroup(l.sent + (pending + xs), g), OfGroup(l.taken + xs, g))
    {
      OfGroupConcat(l.sent + pending, xs, g);
      OfGroupConcat(l.taken, xs, g);
      SubsequenceAppend(OfGroup(l.sent + pending, g), OfGroup(l.taken, g), OfGroup(xs, g));
    }
  }

  lemma SendKept<W(!new)>(l: Ledger<W>, batch: seq<Item<W>>, rest: seq<Item<W>>)
    requires Kept(l, batch + rest)
    ensures Kept(l.(sent := l.sent + batch), rest)
  {
    hide OfGroup, Subsequence;
    Assoc(l.sent, batch, rest);
    assert multiset(batch + rest) == multiset(batch) + multiset(rest);
    assert multiset(l.sent + batch) == multiset(l.sent) + multiset(batch);
  }

  lemma LoseKept<W(!new)>(l: Ledger<W>, cut: seq<Item<W>>, rest: seq<Item<W>>)
    requires Kept(l, cut + rest)
    ensures Kept(l.(lost := l.lost + cut), rest)
  {
    hide OfGroup, Subsequence;
    Assoc(l.sent, cut, rest);
    assert multiset(cut + rest) == multiset(cut) + multiset(rest);
    assert multiset(l.lost + cut) == multiset(l.lost) + multiset(cut);
    forall g
      ensures Subsequence(OfGroup(l.sent + rest, g), OfGroup(l.taken, g))
    {
      OfGroupCut(l.sent, cut, rest, g, OfGroup(l.taken, g));
    }
  }

  lemma BatchKept<W(!new)>(l: Ledger<W>, pending: seq<Item<W>>, max: nat)
    requires 0 < max && Kept(l, pending)
    ensures Kept(l, Flatten(Batches(pending, max)))
  {
    hide OfGroup, Subsequence, Batches, Flatten;
    BatchesKeepContents(pending, max);
    forall g
      ensures Subsequence(OfGroup(l.sent + Flatten(Batches(pending, max)), g), OfGroup(l.taken, g))
    {
      BatchesKeepGroupOrder(pending, max, g);
      OfGroupConcat(l.sent, pending, g);
      OfGroupConcat(l.sent, Flatten(Batches(pending, max)), g);
    }
  }

  lemma NewestKept<W(!new)>(l: Ledger<W>, pending: seq<Item<W>>, cut: nat)
    requires Kept(l, pending) && cut <= |pending|
    ensures Kept(l.(lost := l.lost + pending[..cut]), pending[cut..])
  {
    hide Kept;
    assert pending == pending[..cut] + pending[cut..];
    LoseKept(l, pending[..cut], pending[cut..]);
  }

  /** Appending the new part of a backlog to a mirror of the old part makes it a mirror of the whole. */
  lemma AppendCovers<T>(c: Codec<T>, file: string, entries: seq<T>, from: nat)
    requires from <= |entries| && Terminated(file) && Scannable(file) && AllReadable(c, entries)
    requires multiset(entries[..from]) <= multiset(ReadBack(c, file))
    ensures var after := file + Encoded(c, entries[from..]);
            Terminated(after) && Scannable(after) && multiset(entries) <= multiset(ReadBack(c, after))
  {
    hide ReadBack, Encoded, Scannable, Readable, Terminated;
    assert forall x | x in entries[from..] :: x in entries;
    AppendReads(c, file, entries[from..]);
    assert entries == entries[..from] + entries[from..];
    assert multiset(ReadBack(c, file) + entries[from..]) == multiset(ReadBack(c, file)) + multiset(entries[from..]);
  }

  lemma JoinedReadable<T>(c: Codec<T>, xs: seq<T>, ys: seq<T>)
    requires AllReadable(c, xs) && AllReadable(c, ys)
    ensures AllReadable(c, xs + ys)
  {
  }

  lemma IncludedReadable<T>(c: Codec<T>, out: seq<T>, entries: seq<T>)
    requires AllReadable(c, entries) && multiset(out) <= multiset(entries)
    ensures AllReadable(c, out)
  {
    forall x | x in out
      ensures x in entries
    {
      assert x in multiset(out);
      assert x in multiset(entries);
    }
  }

  lemma StartKept<W(!new)>(restored: seq<Item<W>>)
    ensures Kept(Ledger(restored, [], []), restored)
  {
    hide OfGroup, Subsequence;
    assert [] + restored == restored;
    forall g
      ensures Subsequence(OfGroup(restored, g), OfGroup(restored, g))
    {
      SubsequenceRefl(OfGroup(restored, g));
    }
  }

  lemma FlattenHead<T>(ss: seq<seq<T>>, i: nat)
    requires i < |ss|
    ensures Flatten(ss[i..]) == ss[i] + Flatten(ss[i + 1..])
    ensures multiset(Flatten(ss[i + 1..])) <= multiset(Flatten(ss[i..]))
  {
    assert ss[i..][0] == ss[i] && ss[i..][1..] == ss[i + 1..];
    assert multiset(ss[i] + Flatten(ss[i + 1..])) == multiset(ss[i]) + multiset(Flatten(ss[i + 1..]));
  }

  lemma FlattenNothing<T>(ss: seq<seq<T>>)
    ensures Flatten(ss[|ss|..]) == []
  {
    assert ss[|ss|..] == [];
  }

  lemma NothingOver<T>(left: seq<T>, cap: nat, had: seq<T>)
    requires left == []
    ensures Newest(left, cap) == [] && had + left[..Overflow(left, cap)] == had
  {
  }

  lemma SuffixIncluded<T>(s: seq<T>, n: nat)
    requires n <= |s|
    ensures multiset(s[n..]) <= multiset(s)
  {
    assert s == s[..n] + s[n..];
  }

  // ---------------------------------------------------------------------------
  // The channel in front
  // ---------------------------------------------------------------------------

  const MAX_PUSHES := 8

  /**
   * Puts an entry on the channel without ever blocking. `others` is what the
   * other goroutines make of the channel before each look at it. Every entry
   * this call takes off or gives up on is counted, and it gives up after eight
   * looks; alone, it is a push onto a queue that drops its oldest.
   */
  method Enqueue<T>(ch: seq<T>, it: T, cap: nat, others: (nat, seq<T>) -> seq<T>)
    returns (out: seq<T>, placed: bool, lost: seq<T>, dropped: nat)
    requires 0 < cap && |ch| <= cap
    ensures |lost| <= MAX_PUSHES && dropped == |lost| + if placed then 0 else 1
    ensures placed ==> out != [] && Last(out) == it && |out| <= cap
    ensures (forall n, c :: others(n, c) == c) ==>
              placed && out == Newest(ch + [it], cap) && dropped == Overflow(ch + [it], cap)
  {
    out, placed, lost, dropped := ch, false, [], 0;
    for i := 0 to MAX_PUSHES
      invariant |lost| <= i && dropped == |lost| && !placed
      invariant (forall n, c :: others(n, c) == c) ==>
                  if i == 0 then out == ch && lost == [] else i == 1 && |ch| == cap && out == ch[1..] && |lost| == 1
    {
      out := others(2 * i, out);
      if |out| < cap {
        out, placed := out + [it], true;
        return;
      }
      out := others(2 * i + 1, out);
      if out != [] {
        lost := lost + [out[0]];
        out := out[1..];
        dropped := dropped + 1;
      }
    }
    dropped := dropped + 1;
  }

  // ---------------------------------------------------------------------------
  // The object
  // ---------------------------------------------------------------------------

  datatype Schedule = Immediate | Interval | Startup | Manual

  /** What the disk does in one pass: whether it takes the append, and how a rewrite ends. */
  datatype Medium = Medium(opens: bool, appends: bool, written: nat, rewrite: Rewrite)

  /** One pass that took something in: what, the clock before and after it, and what the disk did. */
  datatype Turn<+W> = Turn(arrivals: seq<Item<W>>, now: int, later: int, medium: Medium)

  /** What stands before a wakeup: what it must wait for, the breaker, the replies to come, the requests made, and what is sent. */
  datatype Standing<+W> = Standing(next: Option<int>, breaker: B.State, net: seq<Reply>, probes: seq<Probe>, sent: seq<Item<W>>)

  function Nows<W>(turns: seq<Turn<W>>): seq<int> { seq(|turns|, i requires 0 <= i < |turns| => turns[i].now) }

  class Sender<W(==,!new)> {
    const schedule: Schedule
    const queueSize: nat
    const maxBatch: nat
    const maxRetries: nat
    const retryBase: nat
    const flushesOnExit: bool
    const urgent: Item<W> -> bool
    const brk: B.Breaker
    const disk: DiskQueue?<Item<W>>

    var pending: seq<Item<W>>
    var nextAttempt: Option<int>
    var deadline: Option<int>
    var sent: nat
    var failed: nat
    var dropped: nat

    /** What the network is going to answer, and what has been asked of it. */
    var net: seq<Reply>
    ghost var probes: seq<Probe>
    ghost var ledger: Ledger<W>
    /** Thrown away and not yet in the counter. */
    ghost var unsaid: nat

    ghost predicate Valid()
      reads this, brk, disk
    {
      && 0 < maxBatch <= queueSize
      && (disk != null ==> disk.Valid())
      && sent == |ledger.sent| && dropped + unsaid == |ledger.lost|
    }

    /** Reading the file back yields every one of these entries, unless the disk has been given up on. */
    ghost predicate Durable(entries: seq<Item<W>>)
      reads this, disk
    {
      disk != null && !disk.broken ==>
        && disk.open && disk.Sound() && AllReadable(disk.codec, entries)
        && multiset(entries) <= multiset(ReadBack(disk.codec, disk.file))
    }

    /** What the sender goroutine starts from: what the file gave back, which stays where it is. */
    constructor (schedule: Schedule, queueSize: nat, maxBatch: nat, maxRetries: nat, retryBase: nat, flushesOnExit: bool,
                 urgent: Item<W> -> bool, threshold: nat, resetMs: nat, disk: DiskQueue?<Item<W>>, restored: seq<Item<W>>,
                 net: seq<Reply>)
      requires 0 < maxBatch <= queueSize
      requires disk != null ==> disk.Valid()
      requires disk != null && !disk.broken ==>
                 && disk.open && disk.Sound() && AllReadable(disk.codec, restored)
                 && multiset(restored) <= multiset(ReadBack(disk.codec, disk.file))
      ensures Valid() && unsaid == 0 && pending == restored && Kept(ledger, pending) && Durable(pending) && fresh(brk)
      ensures this.disk == disk
    {
      this.schedule, this.queueSize, this.maxBatch, this.maxRetries := schedule, queueSize, maxBatch, maxRetries;
      this.retryBase, this.flushesOnExit, this.urgent, this.disk := retryBase, flushesOnExit, urgent, disk;
      brk := new B.Breaker(threshold, resetMs);
      pending, nextAttempt, deadline := restored, None, None;
      sent, failed, dropped, this.net := 0, 0, 0, net;
      probes, ledger, unsaid := [], Ledger(restored, [], []), 0;
      new;
      StartKept(restored);
    }

    function Knobs(): Pace { Pace(retryBase, brk.threshold, brk.resetMs) }

    /** The delivered part of a batch's fate: the counters it moves and the breaker it leaves. */
    method Attempt() returns (outcome: Outcome)
      modifies this`net, this`failed, this`probes, brk
      ensures var t := Attempted(brk.threshold, maxRetries, deadline, old(brk.Model()), old(net), 0);
              && outcome == t.outcome && brk.Model() == t.breaker && net == t.rest
              && failed == old(failed) + t.failed && probes == old(probes) + t.probes
    {
      hide Head, Tail, Spent, B.OnSuccess, B.OnFailure;
      var try := 0;
      while true
        invariant try <= maxRetries
        invariant var t := Attempted(brk.threshold, maxRetries, deadline, old(brk.Model()), old(net), 0);
                  var u := Attempted(brk.threshold, maxRetries, deadline, brk.Model(), net, try);
                  && t.outcome == u.outcome && t.breaker == u.breaker && t.rest == u.rest
                  && old(failed) + t.failed == failed + u.failed && old(probes) + t.probes == probes + u.probes
        decreases maxRetries - try
      {
        var r := Head(net);
        net := Tail(net);
        if Spent(deadline, r) {
          assert probes + [] == probes;
          return Transient;
        }
        ghost var before := probes;
        probes := probes + [Probe(r.asked, brk.Open())];
        match r.outcome
        case Ok =>
          var _ := brk.Succeed();
          return Ok;
        case Permanent =>
          failed := failed + 1;
          var _ := brk.Succeed();
          return Permanent;
        case Transient =>
          failed := failed + 1;
          var _ := brk.Fail(r.at);
          if try >= maxRetries || !r.woke { return Transient; }
          try := try + 1;
          ghost var more := Attempted(brk.threshold, maxRetries, deadline, brk.Model(), net, try).probes;
          Assoc(before, probes[|before|..], more);
          assert probes == before + probes[|before|..];
      }
    }

    /** No request before this hold-off is over. */
    method HoldOff(now: int)
      modifies this`nextAttempt
      ensures nextAttempt == Some(HeldUntil(Knobs(), brk.Model(), now))
    {
      var wait := retryBase;
      var cool := if !brk.Open() then 0 else Max(0, brk.resetMs - (now - brk.openedAt));
      if cool > wait { wait := cool; }
      nextAttempt := Some(now + wait);
    }

    method Trim(entries: seq<Item<W>>) returns (out: seq<Item<W>>)
      requires Valid() && Kept(ledger, entries)
      modifies this`dropped, this`ledger, this`unsaid
      ensures Valid() && out == Newest(entries, queueSize) && |out| <= queueSize && Kept(ledger, out) && unsaid == old(unsaid)
      ensures ledger == old(ledger).(lost := old(ledger.lost) + entries[..Overflow(entries, queueSize)])
      ensures multiset(out) <= multiset(entries)
    {
      if |entries| <= queueSize {
        assert ledger.lost + [] == ledger.lost;
        return entries;
      }
      var excess := |entries| - queueSize;
      Lose(entries, excess);
      NoteDropped(excess);
      SuffixIncluded(entries, excess);
      out := entries[excess..];
    }

    /** The oldest `n` are thrown away, which is not yet to say so. */
    ghost method Lose(entries: seq<Item<W>>, n: nat)
      requires Valid() && Kept(ledger, entries) && n <= |entries|
      modifies this`ledger, this`unsaid
      ensures Valid() && Kept(ledger, entries[n..]) && unsaid == old(unsaid) + n
      ensures ledger == old(ledger).(lost := old(ledger.lost) + entries[..n])
    {
      NewestKept(ledger, entries, n);
      unsaid := unsaid + n;
      ledger := ledger.(lost := ledger.lost + entries[..n]);
    }

    /** Says so. */
    method NoteDropped(n: nat)
      requires Valid() && n <= unsaid
      modifies this`dropped, this`unsaid
      ensures Valid() && dropped == old(dropped) + n && unsaid == old(unsaid) - n
    {
      dropped := dropped + n;
      unsaid := unsaid - n;
    }

    function Bounds(): Limits
      reads this`deadline
    {
      Limits(brk.threshold, maxRetries, deadline)
    }

    /** What a wakeup changes, besides what is lost. */
    ghost function Stands(): Standing<W>
      reads this, brk
    {
      Standing(nextAttempt, brk.Model(), net, probes, ledger.sent)
    }

    /**
     * What a pass over the batches did: those whose last request was answered with
     * a yes are sent, those it was answered with a no for good are lost, and from
     * the first that was not answered on they are left over, bounded. Nothing is
     * to be waited for exactly if all were answered.
     */
    ghost predicate Passed(batches: seq<seq<Item<W>>>, was: Standing<W>, had: Ledger<W>, later: int, out: seq<Item<W>>)
      reads this, brk
    {
      var v := Verdicts(Bounds(), was.breaker, was.net, |batches|);
      var left := Flatten(Staying(batches, v));
      && ledger == Ledger(had.taken, had.sent + Going(batches, v, Ok),
                          had.lost + Going(batches, v, Permanent) + left[..Overflow(left, queueSize)])
      && out == Newest(left, queueSize)
      && nextAttempt == (if Answered(v) == |batches| then None else Some(HeldUntil(Knobs(), brk.Model(), later)))
      && |was.probes| <= |probes| && (batches != [] && deadline.None? ==> |was.probes| < |probes|)
    }

    /** One wakeup's worth of sending. `out` is the backlog it leaves. */
    method Deliver(entries: seq<Item<W>>, now: int, later: int) returns (out: seq<Item<W>>)
      requires Valid() && Kept(ledger, entries)
      modifies this`nextAttempt, this`net, this`sent, this`failed, this`dropped, this`probes, this`ledger, this`unsaid, brk
      ensures Valid() && unsaid == old(unsaid) && Kept(ledger, out)
      ensures ledger.taken == old(ledger.taken) && old(ledger.sent) <= ledger.sent
      ensures multiset(out) <= multiset(entries) && (entries != [] ==> |out| <= queueSize)
      ensures Went(entries, old(Stands()), now, later)
      ensures entries == [] ==> out == [] && ledger == old(ledger)
      // Refused, nothing but what is over the bound is lost.
      ensures entries != [] && Refused(Knobs(), old(nextAttempt), old(brk.Model()), now) ==>
                out == Newest(entries, queueSize) &&
                ledger == old(ledger).(lost := old(ledger.lost) + entries[..Overflow(entries, queueSize)])
      ensures entries != [] && !Refused(Knobs(), old(nextAttempt), old(brk.Model()), now) ==>
                Passed(Batches(entries, maxBatch), old(Stands()).(breaker := Licensed(old(brk.Model()))), old(ledger), later, out)
    {
      hide Kept, Flatten, Batches, Newest, HeldUntil, Overflow, Verdicts, Going, Passed, Through;
      if |entries| == 0 { return entries; }
      var hold := nextAttempt.Some? && now < nextAttempt.value;
      if !hold {
        var ok := brk.Ask(now);
        hold := !ok;
      }
      if hold {
        HoldOff(now);
        out := Trim(entries);
        return;
      }
      ghost var was, had := Stands(), ledger;
      out := SendGrouped(entries, later);
      PassedThrough(Batches(entries, maxBatch), was, had, later, out);
    }

    /** The backlog in bodies, one after the other. */
    method SendGrouped(entries: seq<Item<W>>, later: int) returns (out: seq<Item<W>>)
      requires Valid() && Kept(ledger, entries) && entries != []
      modifies this`nextAttempt, this`net, this`sent, this`failed, this`dropped, this`probes, this`ledger, this`unsaid, brk
      ensures Valid() && unsaid == old(unsaid) && Kept(ledger, out)
      ensures multiset(out) <= multiset(entries) && |out| <= queueSize
      ensures Batches(entries, maxBatch) != [] && Passed(Batches(entries, maxBatch), old(Stands()), old(ledger), later, out)
    {
      hide Kept, Flatten, Batches, ProperBatch, Newest, Passed;
      var batches := GroupIntoBatches(entries, maxBatch);
      BatchKept(ledger, entries, maxBatch);
      BatchesKeepContents(entries, maxBatch);
      BatchesProper(entries, maxBatch);
      out := SendBatches(batches, later);
    }

    /** A breaker that has just let a request through: an open one has a probe out. */
    function Licensed(b: B.State): B.State
    {
      b.(probing := b.probing || B.IsOpen(b, brk.threshold))
    }

    /**
     * What a wakeup over `entries` did, given what stood before it. Refused, it
     * sends nothing and starts the wait again from now; let through, it makes at
     * least one request unless the shutdown budget is spent.
     */
    ghost predicate Went(entries: seq<Item<W>>, was: Standing<W>, now: int, later: int)
      reads this, brk
      requires 0 < maxBatch
    {
      && |was.probes| <= |probes| && ledger.sent == was.sent + Accepted(entries, was, now)
      && (entries == [] ==> Stands() == was)
      && (entries != [] && Refused(Knobs(), was.next, was.breaker, now) ==>
            Stands() == was.(next := Some(HeldUntil(Knobs(), was.breaker, now))))
      && (entries != [] && !Refused(Knobs(), was.next, was.breaker, now) ==>
            Through(Batches(entries, maxBatch), was.(breaker := Licensed(was.breaker)), later))
    }

    /** What a wakeup over `entries` sends: the batches whose last request was answered with a yes. */
    ghost function Accepted(entries: seq<Item<W>>, was: Standing<W>, now: int): seq<Item<W>>
      reads this`deadline
      requires 0 < maxBatch
    {
      if entries == [] || Refused(Knobs(), was.next, was.breaker, now) then []
      else
        var batches := Batches(entries, maxBatch);
        Going(batches, Verdicts(Bounds(), Licensed(was.breaker), was.net, |batches|), Ok)
    }

    /** Nothing is left to wait for exactly if every batch was answered. */
    ghost predicate Through(batches: seq<seq<Item<W>>>, was: Standing<W>, later: int)
      reads this, brk
    {
      var v := Verdicts(Bounds(), was.breaker, was.net, |batches|);
      && nextAttempt == (if Answered(v) == |batches| then None else Some(HeldUntil(Knobs(), brk.Model(), later)))
      && (deadline.None? ==> |was.probes| < |probes|)
    }

    /** The batches in order, until one comes back unanswered: it and the rest stay. */
    method SendBatches(batches: seq<seq<Item<W>>>, later: int) returns (out: seq<Item<W>>)
      requires Valid() && Kept(ledger, Flatten(batches))
      modifies this`nextAttempt, this`net, this`sent, this`failed, this`dropped, this`probes, this`ledger, this`unsaid, brk
      ensures Valid() && unsaid == old(unsaid) && Kept(ledger, out)
      ensures multiset(out) <= multiset(Flatten(batches)) && |out| <= queueSize
      ensures Passed(batches, old(Stands()), old(ledger), later, out)
    {
      hide Kept, Flatten, Newest, HeldUntil, Verdicts, Going, Attempted, Overflow, AnswerTo, Answered, Onward, Staying;
      ghost var v := Verdicts(Bounds(), brk.Model(), net, |batches|);
      assert batches[0..] == batches;
      OnwardEnds(ledger.sent, batches, v, 0, Ok);
      OnwardEnds(ledger.lost, batches, v, 0, Permanent);
      for i := 0 to |batches|
        invariant Valid() && unsaid == old(unsaid)
        invariant |old(probes)| <= |probes| && (i > 0 && deadline.None? ==> |old(probes)| < |probes|)
        invariant ledger.taken == old(ledger.taken)
        invariant Kept(ledger, Flatten(batches[i..]))
        invariant multiset(Flatten(batches[i..])) <= multiset(Flatten(batches))
        invariant i <= |v| && v[i..] == Verdicts(Bounds(), brk.Model(), net, |batches| - i) && Answered(v) == i + Answered(v[i..])
        invariant Onward(old(ledger.sent), batches, v, 0, Ok) == Onward(ledger.sent, batches, v, i, Ok)
        invariant Onward(old(ledger.lost), batches, v, 0, Permanent) == Onward(ledger.lost, batches, v, i, Permanent)
      {
        FlattenHead(batches, i);
        VerdictsStep(Bounds(), brk.Model(), net, |batches| - i);
        GoingStep(batches, v, i, ledger.sent, Ok);
        GoingStep(batches, v, i, ledger.lost, Permanent);
        var answered := SendOne(batches[i], Flatten(batches[i + 1..]));
        if !answered {
          OnwardEnds(ledger.sent, batches, v, i + 1, Ok);
          OnwardEnds(ledger.lost, batches, v, i + 1, Permanent);
          StayingFrom(batches, v);
          out := GiveBack(batches, i, later);
          return;
        }
      }
      FlattenNothing(batches);
      OnwardEnds(ledger.sent, batches, v, |batches|, Ok);
      OnwardEnds(ledger.lost, batches, v, |batches|, Permanent);
      StayingFrom(batches, v);
      NothingOver(Flatten(batches[|batches|..]), queueSize, ledger.lost);
      nextAttempt := None;
      out := [];
    }

    /** From the i-th on they stay, oldest first, within the bound. */
    method GiveBack(batches: seq<seq<Item<W>>>, i: nat, later: int) returns (out: seq<Item<W>>)
      requires Valid() && i <= |batches| && Kept(ledger, Flatten(batches[i..]))
      modifies this`nextAttempt, this`dropped, this`ledger, this`unsaid
      ensures Valid() && unsaid == old(unsaid) && Kept(ledger, out)
      ensures out == Newest(Flatten(batches[i..]), queueSize) && |out| <= queueSize
      ensures multiset(out) <= multiset(Flatten(batches[i..]))
      ensures nextAttempt == Some(HeldUntil(Knobs(), brk.Model(), later))
      ensures var left := Flatten(batches[i..]);
              ledger == old(ledger).(lost := old(ledger.lost) + left[..Overflow(left, queueSize)])
    {
      hide Kept, Flatten, Newest, HeldUntil;
      var leftover := Leftover(batches, i);
      HoldOff(later);
      out := Trim(leftover);
    }

    /** What a pass says besides what it lost and left. */
    lemma PassedThrough(batches: seq<seq<Item<W>>>, was: Standing<W>, had: Ledger<W>, later: int, out: seq<Item<W>>)
      requires batches != [] && Passed(batches, was, had, later, out)
      ensures ledger.taken == had.taken && had.sent <= ledger.sent && |was.probes| <= |probes| && Through(batches, was, later)
      ensures ledger.sent == had.sent + Going(batches, Verdicts(Bounds(), was.breaker, was.net, |batches|), Ok)
    {
      hide Going, Verdicts, Answered;
    }

    /** From a pass that a server answered yes throughout, everything is sent, and nothing is lost or left. */
    lemma PassedWhole(batches: seq<seq<Item<W>>>, was: Standing<W>, had: Ledger<W>, later: int, out: seq<Item<W>>)
      requires Passed(batches, was, had, later, out) && deadline.None?
      requires AllYes(was.net, |batches|)
      ensures ledger == had.(sent := had.sent + Flatten(batches)) && out == [] && nextAttempt == None
    {
      hide Verdicts, Going, Answered, HeldUntil;
      AllTaken(Bounds(), was.breaker, was.net, batches);
    }

    /** One batch of several: taken, refused for good, or not answered at all. */
    method SendOne(batch: seq<Item<W>>, ghost rest: seq<Item<W>>) returns (answered: bool)
      requires Valid() && Kept(ledger, batch + rest)
      modifies this`net, this`sent, this`failed, this`dropped, this`probes, this`ledger, brk
      ensures Valid() && Kept(ledger, if answered then rest else batch + rest)
      ensures |old(probes)| <= |probes| && (deadline.None? ==> |old(probes)| < |probes|)
      ensures var t := Attempted(brk.threshold, maxRetries, deadline, old(brk.Model()), old(net), 0);
              var o := AnswerTo(old(net), |t.probes|);
              && brk.Model() == t.breaker && net == t.rest && (answered <==> o != Transient)
              && ledger == Ledger(old(ledger.taken), old(ledger.sent) + (if o == Ok then batch else []),
                                  old(ledger.lost) + (if o == Permanent then batch else []))
    {
      hide Kept, Attempted;
      AttemptAsks(brk.threshold, maxRetries, deadline, brk.Model(), net);
      AttemptAnswer(brk.threshold, maxRetries, deadline, brk.Model(), net, 0);
      assert ledger.sent + [] == ledger.sent && ledger.lost + [] == ledger.lost;
      var outcome := Attempt();
      answered := outcome != Transient;
      if outcome == Ok {
        SendKept(ledger, batch, rest);
        sent := sent + |batch|;
        ledger := ledger.(sent := ledger.sent + batch);
      } else if outcome == Permanent {
        LoseKept(ledger, batch, rest);
        dropped := dropped + |batch|;
        ledger := ledger.(lost := ledger.lost + batch);
      }
    }

    method Leftover(batches: seq<seq<Item<W>>>, from: nat) returns (leftover: seq<Item<W>>)
      requires from <= |batches|
      ensures leftover == Flatten(batches[from..])
    {
      hide Flatten;
      leftover := [];
      for i := from to |batches|
        invariant leftover + Flatten(batches[i..]) == Flatten(batches[from..])
      {
        FlattenHead(batches, i);
        Assoc(leftover, batches[i], Flatten(batches[i + 1..]));
        leftover := leftover + batches[i];
      }
      FlattenNothing(batches);
    }

    /**
     * Rewrites the mirror to what is left and says how much did not fit. Whatever
     * content of the path a crash catches, it reads back every entry still owed.
     */
    method Mirror(entries: seq<Item<W>>, medium: Medium) returns (out: seq<Item<W>>, gone: nat)
      requires Valid() && disk != null && Kept(ledger, entries) && Durable(entries)
      modifies this`ledger, this`unsaid, disk
      ensures gone <= |entries| && out == entries[gone..] && unsaid == old(unsaid) + gone
      ensures gone > 0 <==> !old(disk.broken) && medium.rewrite.Replaced? && |Encoded(disk.codec, entries)| > disk.maxBytes
      ensures entries != [] && Storable(Last(entries)) ==> out != []
      ensures Valid() && Kept(ledger, out) && Durable(out) && multiset(out) <= multiset(entries) && |out| <= |entries|
      ensures !disk.broken ==> ReadBack(disk.codec, disk.file) == out && |disk.file| <= disk.maxBytes
      ensures !old(disk.broken) ==>
                forall content | content in Contents(old(disk.past), disk.past) :: multiset(out) <= multiset(ReadBack(disk.codec, content))
      ensures ledger == old(ledger).(lost := old(ledger.lost) + entries[..gone])
      ensures disk.broken <==> old(disk.broken) || medium.rewrite != Replaced(true)
    {
      hide ReadBack, Encoded, Scannable, Readable, Terminated, Kept;
      out, gone := disk.Sync(entries, medium.rewrite);
      SuffixIncluded(entries, gone);
      Lose(entries, gone);
      if !old(disk.broken) {
        IncludedReadable(disk.codec, out, entries);
        ReadEncoded(disk.codec, out);
      }
    }

    /** The file, if there is one, has room for this entry alone. */
    ghost predicate Storable(x: Item<W>) { disk != null ==> |Line(disk.codec, x)| <= disk.maxBytes }

    /** What was at the path when a call began, and whatever the call put there. */
    static ghost function Contents(before: seq<string>, after: seq<string>): seq<string> {
      if 0 < |before| <= |after| then after[|before| - 1..] else []
    }

    /** Mirrors the entries that joined the backlog in this pass. */
    method MirrorNew(entries: seq<Item<W>>, from: nat, medium: Medium)
      requires Valid() && disk != null && from < |entries| && Durable(entries[..from]) && AllReadable(disk.codec, entries)
      modifies disk
      ensures Valid() && Durable(entries)
    {
      hide ReadBack, Encoded, Scannable, Readable, Terminated;
      if !disk.broken { AppendCovers(disk.codec, disk.file, entries, from); }
      disk.Append(entries[from..], medium.opens, medium.appends, medium.written);
    }

    /** Takes in what has just arrived: mirrors it, then keeps the backlog bounded. */
    method Admit(entries: seq<Item<W>>, from: nat, medium: Medium) returns (out: seq<Item<W>>)
      requires Valid() && from <= |entries| && Kept(ledger, entries) && Durable(entries[..from])
      requires disk != null ==> AllReadable(disk.codec, entries)
      modifies this`dropped, this`ledger, this`unsaid, disk
      ensures Valid() && Kept(ledger, out) && Durable(out) && |out| <= queueSize && unsaid == old(unsaid)
      ensures multiset(out) <= multiset(entries) && (entries != [] && Storable(Last(entries)) ==> out != [])
      ensures Cut(entries, medium, out)
      ensures ledger == old(ledger).(lost := old(ledger.lost) + entries[..|entries| - |out|])
    {
      hide ReadBack, Encoded, Scannable, Readable, Terminated, Kept, Cut;
      if disk != null && from < |entries| {
        MirrorNew(entries, from, medium);
      }
      assert from == |entries| ==> entries[..from] == entries;
      out := Bound(entries, medium);
    }

    /** Trims the backlog, and rewrites the mirror where that took something away or the file has grown too long. */
    method Bound(entries: seq<Item<W>>, medium: Medium) returns (out: seq<Item<W>>)
      requires Valid() && Kept(ledger, entries) && Durable(entries) && (disk != null ==> AllReadable(disk.codec, entries))
      modifies this`dropped, this`ledger, this`unsaid, disk
      ensures Valid() && Kept(ledger, out) && Durable(out) && |out| <= queueSize && unsaid == old(unsaid)
      ensures multiset(out) <= multiset(entries) && (entries != [] && Storable(Last(entries)) ==> out != [])
      ensures Cut(entries, medium, out)
      ensures ledger == old(ledger).(lost := old(ledger.lost) + entries[..|entries| - |out|])
    {
      hide ReadBack, Encoded, Scannable, Readable, Terminated, Kept, Cut, Storable, Newest, Overflow;
      ghost var had := ledger.lost;
      out := Trim(entries);
      CutMore(entries, medium, out, 0, had);
      if disk != null && !disk.broken { IncludedReadable(disk.codec, out, entries); }
      if disk != null && (|out| != |entries| || disk.OverCap()) {
        var bounded := out;
        var gone;
        out, gone := Mirror(bounded, medium);
        CutMore(entries, medium, bounded, gone, had);
        NoteDropped(gone);
      }
    }

    lemma CutMore(entries: seq<Item<W>>, medium: Medium, bounded: seq<Item<W>>, gone: nat, had: seq<Item<W>>)
      requires bounded == Newest(entries, queueSize) && gone <= |bounded|
      requires gone > 0 ==> disk != null && medium.rewrite.Replaced? && |Encoded(disk.codec, bounded)| > disk.maxBytes
      ensures Cut(entries, medium, bounded[gone..])
      ensures entries != [] && queueSize > 0 ==> bounded != [] && Last(bounded) == Last(entries)
      ensures had + entries[..Overflow(entries, queueSize)] + bounded[..gone] == had + entries[..|entries| - |bounded[gone..]|]
    {
      hide Encoded;
    }

    /** What is kept of a backlog: its newest, as many as there is room for, and fewer only where the file has none. */
    ghost predicate Cut(entries: seq<Item<W>>, medium: Medium, out: seq<Item<W>>) {
      && |out| <= |entries| && out == entries[|entries| - |out|..]
      && (disk == null || !medium.rewrite.Replaced? || |Encoded(disk.codec, Newest(entries, queueSize))| <= disk.maxBytes ==>
            out == Newest(entries, queueSize))
    }

    /** One wakeup, after which the file reads back whatever the backlog then is. */
    method Send(entries: seq<Item<W>>, now: int, later: int, medium: Medium) returns (out: seq<Item<W>>)
      requires Valid() && Kept(ledger, entries) && Durable(entries)
      requires disk != null ==> AllReadable(disk.codec, entries)
      modifies this`nextAttempt, this`net, this`sent, this`failed, this`dropped, this`probes, this`ledger, this`unsaid, brk, disk
      ensures Valid() && Kept(ledger, out) && Durable(out) && unsaid == old(unsaid)
      ensures ledger.taken == old(ledger.taken) && old(ledger.sent) <= ledger.sent
      ensures multiset(out) <= multiset(entries) && (if entries == [] then out == [] else |out| <= queueSize)
      ensures Went(entries, old(Stands()), now, later)
    {
      hide ReadBack, Encoded, Scannable, Readable, Terminated, Kept, Newest, Refused, HeldUntil;
      hide Passed, Verdicts, Going, Batches, Overflow, Answered;
      out := Deliver(entries, now, later);
      if disk != null && !disk.broken { IncludedReadable(disk.codec, out, entries); }
      if disk != null && |out| != |entries| {
        var gone;
        out, gone := Mirror(out, medium);
        NoteDropped(gone);
      }
    }

    // -------------------------------------------------------------------------
    // The sender's loop, a case at a time
    // -------------------------------------------------------------------------

    /** Between any two cases. */
    ghost predicate Steady()
      reads this, brk, disk
    {
      && Valid() && unsaid == 0
      && Kept(ledger, pending) && Durable(pending) && (disk != null ==> AllReadable(disk.codec, pending))
    }

    predicate SendNow(backlog: nat, anyUrgent: bool)
      reads this
    {
      anyUrgent || schedule == Immediate || (schedule == Interval && backlog >= maxBatch)
    }

    /** What starts a run that found a backlog. */
    method Begin(now: int, later: int, medium: Medium)
      requires Steady()
      modifies this, brk, disk
      ensures Steady()
      ensures schedule != Manual ==> Went(old(pending), old(Stands()), now, later)
      ensures schedule == Manual ==> pending == old(pending) && Stands() == old(Stands())
    {
      if |pending| > 0 && schedule != Manual {
        SendPending(now, later, medium);
      }
    }

    method SendPending(now: int, later: int, medium: Medium)
      requires Steady()
      modifies this, brk, disk
      ensures Steady() && multiset(pending) <= multiset(old(pending))
      ensures if old(pending) == [] then pending == [] else |pending| <= queueSize
      ensures ledger.taken == old(ledger.taken) && old(ledger.sent) <= ledger.sent && deadline == old(deadline)
      ensures Went(old(pending), old(Stands()), now, later)
    {
      hide ReadBack, Readable, Kept, Refused, HeldUntil, Verdicts, Going, Batches, Answered;
      var out := Send(pending, now, later, medium);
      if disk != null { IncludedReadable(disk.codec, out, pending); }
      pending := out;
    }

    /** Takes arrivals into the backlog: mirrored, then bounded. */
    method Join(arrivals: seq<Item<W>>, medium: Medium)
      requires Steady() && (disk != null ==> AllReadable(disk.codec, arrivals))
      modifies this`pending, this`dropped, this`ledger, this`unsaid, disk
      ensures Steady() && |pending| <= queueSize && (arrivals != [] && Storable(Last(arrivals)) ==> pending != [])
      ensures ledger.taken == old(ledger.taken) + arrivals && ledger.sent == old(ledger.sent)
      ensures Cut(old(pending) + arrivals, medium, pending)
    {
      hide ReadBack, Readable, Kept, Storable, Cut;
      var joined := pending + arrivals;
      assert joined[..|pending|] == pending;
      assert arrivals != [] ==> Last(joined) == Last(arrivals);
      if disk != null { JoinedReadable(disk.codec, pending, arrivals); }
      ArriveKept(ledger, pending, arrivals);
      ledger := ledger.(taken := ledger.taken + arrivals);
      var out := Admit(joined, |pending|, medium);
      if disk != null { IncludedReadable(disk.codec, out, joined); }
      pending := out;
    }

    /**
     * Something arrived: it and everything already queued, mirrored and bounded;
     * then sent if one of the arrivals is urgent, if the schedule is immediate, or
     * if it is interval and the backlog makes a batch, and otherwise left alone.
     */
    method OnArrivals(arrivals: seq<Item<W>>, now: int, later: int, medium: Medium) returns (ghost backlog: seq<Item<W>>)
      requires Steady() && arrivals != [] && (disk != null ==> AllReadable(disk.codec, arrivals))
      modifies this, brk, disk
      ensures Steady() && |pending| <= queueSize && ledger.taken == old(ledger.taken) + arrivals && deadline == old(deadline)
      ensures Cut(old(pending) + arrivals, medium, backlog) && (Storable(Last(arrivals)) ==> backlog != [])
      ensures var due := AnyUrgent(arrivals) || schedule == Immediate || (schedule == Interval && |backlog| >= maxBatch);
              && (due ==> Went(backlog, old(Stands()), now, later))
              && (!due ==> pending == backlog && Stands() == old(Stands()))
    {
      hide Durable, Kept, Readable, ReadBack, Refused, HeldUntil, Storable, Went, Cut;
      var anyUrgent := AnyUrgent(arrivals);
      Join(arrivals, medium);
      backlog := pending;
      if SendNow(|pending|, anyUrgent) {
        SendPending(now, later, medium);
      }
    }

    predicate AnyUrgent(arrivals: seq<Item<W>>) { exists i | 0 <= i < |arrivals| :: urgent(arrivals[i]) }

    /**
     * A busy stretch of an immediate client: no request is made in it exactly where
     * every pass comes before the moment the one before it left, which `StarvesIff`
     * says is every pass within the base delay of the last.
     */
    method Busy(turns: seq<Turn<W>>)
      requires Steady() && schedule == Immediate && deadline.None?
      requires forall i | 0 <= i < |turns| :: turns[i].arrivals != [] && Storable(Last(turns[i].arrivals))
      requires forall i | 0 <= i < |turns| :: disk != null ==> AllReadable(disk.codec, turns[i].arrivals)
      modifies this, brk, disk
      ensures Steady() && |old(probes)| <= |probes|
      ensures |probes| == |old(probes)| <==> AllRefused(Knobs(), old(nextAttempt), old(brk.Model()), Nows(turns))
    {
      hide Durable, Kept, Readable, ReadBack, Refused, HeldUntil, Storable, Cut, Verdicts, Going, Batches, Accepted;
      ghost var next, b := nextAttempt, brk.Model();
      for i := 0 to |turns|
        invariant Steady() && deadline.None? && |old(probes)| <= |probes|
        invariant if AllRefused(Knobs(), next, b, Nows(turns)[..i])
                  then |probes| == |old(probes)| && nextAttempt == WaitLeft(Knobs(), next, b, Nows(turns)[..i]) && brk.Model() == b
                  else |old(probes)| < |probes|
      {
        assert Front(Nows(turns)[..i + 1]) == Nows(turns)[..i] && Last(Nows(turns)[..i + 1]) == turns[i].now;
        var _ := OnArrivals(turns[i].arrivals, turns[i].now, turns[i].later, turns[i].medium);
      }
      assert Nows(turns)[..|turns|] == Nows(turns);
    }

    /** The ticker and the retry timer alike. */
    method OnTimer(now: int, later: int, medium: Medium)
      requires Steady()
      modifies this, brk, disk
      ensures Steady() && ledger.taken == old(ledger.taken)
      ensures Went(old(pending), old(Stands()), now, later)
    {
      hide Went;
      SendPending(now, later, medium);
    }

    /** A flush sends under every schedule. */
    method OnFlush(arrivals: seq<Item<W>>, now: int, later: int, medium: Medium) returns (ghost backlog: seq<Item<W>>)
      requires Steady() && (disk != null ==> AllReadable(disk.codec, arrivals))
      modifies this, brk, disk
      ensures Steady() && |pending| <= queueSize && ledger.taken == old(ledger.taken) + arrivals
      ensures Cut(old(pending) + arrivals, medium, backlog) && Went(backlog, old(Stands()), now, later)
    {
      hide Durable, Kept, Readable, ReadBack, Refused, HeldUntil, Went, Cut;
      Join(arrivals, medium);
      backlog := pending;
      SendPending(now, later, medium);
    }

    /** Within a budget; a running backoff is cleared, an open breaker is not. */
    method LastDelivery(now: int, later: int, budget: nat)
      requires Steady()
      modifies this, brk
      ensures Steady() && ledger.taken == old(ledger.taken) && deadline == Some(now + budget)
      ensures Went(old(pending), old(Stands()).(next := None), now, later)
      ensures ledger.sent == old(ledger.sent) + Accepted(old(pending), old(Stands()).(next := None), now)
    {
      hide ReadBack, Readable, Kept, Refused, HeldUntil, Verdicts, Going, Batches;
      nextAttempt := None;
      deadline := Some(now + budget);
      var out := Deliver(pending, now, later);
      if disk != null { IncludedReadable(disk.codec, out, pending); }
      pending := out;
    }

    /**
     * One last pass; what does not make it out is the last word of the mirror. What
     * that rewrite, where the file still works, drops of `left` for want of room is
     * the one loss no counter sees.
     */
    method OnQuit(arrivals: seq<Item<W>>, now: int, later: int, budget: nat, medium: Medium) 
      returns (ghost backlog: seq<Item<W>>, ghost left: seq<Item<W>>, ghost works: bool)
      requires Steady() && (disk != null ==> AllReadable(disk.codec, arrivals))
      modifies this, brk, disk
      ensures Valid() && Kept(ledger, pending) && Durable(pending) && ledger.taken == old(ledger.taken) + arrivals
      ensures Cut(old(pending) + arrivals, medium, backlog)
      ensures ledger.sent == old(ledger.sent) + if flushesOnExit then Accepted(backlog, old(Stands()).(next := None), now) else []
      ensures unsaid <= |left| && pending == left[unsaid..]
      ensures (works ==> disk != null) && (disk != null && !disk.broken ==> works)
      ensures unsaid > 0 <==> works && medium.rewrite.Replaced? && |Encoded(disk.codec, left)| > disk.maxBytes
      ensures disk != null && !disk.broken ==> ReadBack(disk.codec, disk.file) == pending && |disk.file| <= disk.maxBytes
    {
      hide ReadBack, Readable, Kept, Refused, HeldUntil, Cut, Went, Newest, Accepted;
      Join(arrivals, medium);
      backlog := pending;
      if flushesOnExit { LastDelivery(now, later, budget); }
      left, works := pending, disk != null && !disk.broken;
      if disk != null {
        var out, _ := Mirror(pending, medium);
        pending := out;
      }
    }
  }
}
