/**
 * The client, the network and the edge together. A request may be lost, may be
 * applied without its reply arriving, and may be applied long after the client
 * stopped waiting for it or more than once; the client may retry it, give it up,
 * or replay it from a durable queue.
 */
module ExactlyOnce {
  import opened Sequences
  import opened Attributes
  import opened Grouping
  import opened Delivery
  import opened Edge
  import DR = DeliveryRuns

  /** One client's end-to-end configuration: its options, its source key, and the sources the edge knows. */
  datatype Site = Site(cfg: Config, key: string, sources: map<string, Source>)

  datatype World = World(s: DR.State, wire: seq<Body>, server: Server, handled: set<nat>, meterFailed: bool)

  datatype Happening =
    | ClientStep(e: Event)
    | Arrive(request: nat, meterOk: bool, now: int)  // the edge works on a request put on the wire earlier

  function Wires(b: seq<Queued>): seq<WireEntry> {
    if b == [] then [] else [b[0].load.wire] + Wires(b[1..])
  }

  /** The body of a batch: the head's resource, and the entries in order. */
  function BodyOf(key: string, b: seq<Queued>): Body
    requires b != []
  {
    Body(key, b[0].load.resource, Wires(b))
  }

  function Start(site: Site): World
    requires site.cfg.Valid()
  {
    World(DR.State(Initial(site.cfg), NOTHING_YET), [], Server(site.sources, [], 0), {}, false)
  }

  /** A client sees a 2xx only for a request the edge has answered with one. */
  predicate CanHappen(site: Site, w: World, x: Happening) {
    match x
    case ClientStep(e) =>
      Possible(site.cfg, w.s.c, e) && (e.Reply? && e.outcome == Ok ==> w.wire != [] && |w.wire| - 1 in w.handled)
    case Arrive(i, _, _) => i < |w.wire|
  }

  function OnWire(site: Site, w: World, c: Client, e: Event, c': Client): seq<Body> {
    if Emits(c, e, c') && c'.phase.batches != [] && c'.phase.batches[0] != []
    then w.wire + [BodyOf(site.key, c'.phase.batches[0])] else w.wire
  }

  function Happened(site: Site, w: World, x: Happening): World
    requires site.cfg.Valid() && CanHappen(site, w, x)
  {
    match x
    case ClientStep(e) =>
      var c' := Next(site.cfg, w.s.c, e);
      w.(s := DR.State(c', Remember(site.cfg, w.s.h, w.s.c, e)), wire := OnWire(site, w, w.s.c, e, c'))
    case Arrive(i, meterOk, now) =>
      var (response, server) := Handle(w.server, w.wire[i], meterOk, now);
      w.(server := server, handled := if response.Accepted? then w.handled + {i} else w.handled,
         meterFailed := w.meterFailed || !meterOk)
  }

  function WorldAfter(site: Site, xs: seq<Happening>): Option<World>
    requires site.cfg.Valid()
  {
    if xs == [] then Some(Start(site))
    else
      var before := WorldAfter(site, Front(xs));
      if before.None? || !CanHappen(site, before.value, Last(xs)) then None
      else Some(Happened(site, before.value, Last(xs)))
  }

  // ---------------------------------------------------------------------------
  // The invariant
  // ---------------------------------------------------------------------------

  function KeyOf(site: Site, e: WireEntry): Key
    requires site.key in site.sources
  {
    Key(site.sources[site.key].projectId, e.time, e.id)
  }

  /** Recorded or restored by this client. */
  predicate Took(s: DR.State, x: Queued) { x in s.h.recorded || x in s.h.restored }

  /** e is the entry of something this client took in, and r the resource of something of the same group. */
  ghost predicate Known(s: DR.State, r: Option<Attrs>, e: WireEntry) {
    exists x, y :: Took(s, x) && Took(s, y) && x.group == y.group && x.load.wire == e && y.load.resource == r
  }

  ghost predicate WireKnown(site: Site, w: World) {
    && (forall i | 0 <= i < |w.wire| :: w.wire[i].key == site.key)
    && (forall i, e | 0 <= i < |w.wire| && e in w.wire[i].entries :: Known(w.s, w.wire[i].resource, e))
  }

  ghost predicate Current(site: Site, w: World) {
    w.s.c.phase.Sending? && w.s.c.phase.batches != [] && w.s.c.phase.batches[0] != [] ==>
      w.wire != [] && Last(w.wire) == BodyOf(site.key, w.s.c.phase.batches[0])
  }

  /** A row is made of a known entry, under the resource it was sent with or none if that was no good. */
  ghost predicate RowKnown(site: Site, s: DR.State, row: Row) {
    site.key in site.sources &&
    exists r, e, now :: Known(s, r, e) && Parses(e) && MadeUnder(row, r, e, site.sources[site.key], now)
  }

  ghost predicate TableKnown(site: Site, w: World) { forall row | row in w.server.rows :: RowKnown(site, w.s, row) }

  ghost predicate AllStored(site: Site, rows: seq<Row>, entries: seq<WireEntry>) {
    site.key in site.sources && forall e | e in entries && Parses(e) :: Stored(rows, KeyOf(site, e))
  }

  ghost predicate HandledStored(site: Site, w: World) {
    forall i | i in w.handled :: i < |w.wire| && AllStored(site, w.server.rows, w.wire[i].entries)
  }

  ghost predicate SentStored(site: Site, w: World) {
    w.s.h.sent != [] ==> AllStored(site, w.server.rows, Wires(w.s.h.sent))
  }

  ghost predicate Metered(w: World) {
    ServerInv(w.server) && (!w.meterFailed ==> w.server.meter == |w.server.rows|)
  }

  ghost predicate Inv(site: Site, w: World) {
    && DR.Inv(site.cfg, w.s) && w.server.sources == site.sources && Metered(w)
    && WireKnown(site, w) && Current(site, w) && TableKnown(site, w) && HandledStored(site, w) && SentStored(site, w)
  }

  lemma {:induction false} WiresMembers(b: seq<Queued>)
    ensures forall e :: e in Wires(b) <==> exists x :: x in b && x.load.wire == e
    decreases |b|
  {
    if b != [] {
      WiresMembers(b[1..]);
      assert b == [b[0]] + b[1..];
    }
  }

  /** What is in flight was recorded or restored. */
  lemma HeldIsKnown(s: DR.State, line: seq<Queued>, x: Queued)
    requires DR.Conserved(s.h, line) && x in line
    ensures Took(s, x)
  {
    assert x in multiset(line) + DR.Gone(s.h);
    assert x in DR.Entered(s.h);
  }

  lemma FrontBatchKnown(cfg: Config, s: DR.State, e: WireEntry)
    requires DR.Inv(cfg, s) && s.c.phase.Sending? && e in Wires(s.c.phase.batches[0]) && s.c.phase.batches[0] != []
    ensures Known(s, s.c.phase.batches[0][0].load.resource, e)
  {
    hide Wires, DR.Probes, DR.Awake, DR.InOrder, DR.Conserved, DR.Budgeted, Took;
    var first := s.c.phase.batches[0];
    WiresMembers(first);
    var x :| x in first && x.load.wire == e;
    assert InFlight(s.c) == first + Flatten(s.c.phase.batches[1..]);
    HeldIsKnown(s, Held(s.c), x);
    HeldIsKnown(s, Held(s.c), first[0]);
    assert first in s.c.phase.batches;
  }

  /** What is known stays known. */
  lemma KnownGrows(cfg: Config, s: DR.State, e: Event)
    requires cfg.Valid() && Possible(cfg, s.c, e)
    ensures var s' := DR.State(Next(cfg, s.c, e), Remember(cfg, s.h, s.c, e));
            && (forall r, w | Known(s, r, w) :: Known(s', r, w))
            && (forall site, row | RowKnown(site, s, row) :: RowKnown(site, s', row))
  {
    hide Parses, MadeUnder;
    hide Next, InFlight, Held, Excess;
    var h' := Moved(cfg, s.h, s.c, e);
    assert s.h.recorded <= h'.recorded && s.h.restored <= h'.restored;
    assert forall x | x in s.h.recorded :: x in h'.recorded;
    assert forall x | x in s.h.restored :: x in h'.restored;
    var s' := DR.State(Next(cfg, s.c, e), Remember(cfg, s.h, s.c, e));
    assert forall x | Took(s, x) :: Took(s', x);
    hide Remember;
    forall r, w | Known(s, r, w)
      ensures Known(s', r, w)
    {
    }
  }

  lemma SentGrows(cfg: Config, s: DR.State, e: Event)
    requires cfg.Valid() && Possible(cfg, s.c, e)
    ensures Remember(cfg, s.h, s.c, e).sent ==
            if e.Reply? && e.outcome == Ok then s.h.sent + s.c.phase.batches[0] else s.h.sent
  {
    hide Next, InFlight, Held, Excess;
  }

  lemma EmitsOrStays(cfg: Config, c: Client, e: Event)
    requires cfg.Valid() && Possible(cfg, c, e)
    ensures var c' := Next(cfg, c, e);
            c'.phase.Sending? && !Emits(c, e, c') ==> c'.phase == c.phase
  {
    hide Drain;
    if c.phase.Sending? { DR.DrainAdvances(cfg, c, e); }
  }

  lemma {:induction false} WiresConcat(a: seq<Queued>, b: seq<Queued>)
    ensures Wires(a + b) == Wires(a) + Wires(b)
    decreases |a|
  {
    if a == [] {
      assert a + b == b;
    } else {
      assert (a + b)[1..] == a[1..] + b;
      WiresConcat(a[1..], b);
    }
  }

  lemma ClientStepWire(site: Site, w: World, e: Event)
    requires site.cfg.Valid() && Inv(site, w) && CanHappen(site, w, ClientStep(e))
    ensures var w' := Happened(site, w, ClientStep(e));
            DR.Inv(site.cfg, w'.s) && WireKnown(site, w') && Current(site, w') && TableKnown(site, w')
  {
    hide DR.Inv, Next, Remember, Known, RowKnown, Wires, Stored, Metered, HandledStored, SentStored, KeyOf;
    var w' := Happened(site, w, ClientStep(e));
    DR.StepInv(site.cfg, w.s, e);
    KnownGrows(site.cfg, w.s, e);
    EmitsOrStays(site.cfg, w.s.c, e);
    if Emits(w.s.c, e, w'.s.c) {
      ProperFront(site.cfg, w'.s);
      forall x | x in Wires(w'.s.c.phase.batches[0])
        ensures Known(w'.s, w'.s.c.phase.batches[0][0].load.resource, x)
      {
        FrontBatchKnown(site.cfg, w'.s, x);
      }
    }
  }

  lemma ProperFront(cfg: Config, s: DR.State)
    requires DR.Inv(cfg, s) && s.c.phase.Sending?
    ensures s.c.phase.batches != [] && s.c.phase.batches[0] != []
  {
    hide DR.Probes, DR.Awake, DR.Places;
    assert s.c.phase.batches[0] in s.c.phase.batches;
  }

  lemma ClientStepStored(site: Site, w: World, e: Event)
    requires site.cfg.Valid() && Inv(site, w) && CanHappen(site, w, ClientStep(e))
    ensures var w' := Happened(site, w, ClientStep(e));
            HandledStored(site, w') && SentStored(site, w') && Metered(w')
  {
    hide DR.Inv, Next, Remember, Known, Wires, Stored, WireKnown, TableKnown, KeyOf, BodyOf;
    var w' := Happened(site, w, ClientStep(e));
    assert w.wire <= w'.wire;
    SentGrows(site.cfg, w.s, e);
    if e.Reply? && e.outcome == Ok {
      ProperFront(site.cfg, w.s);
      var first := w.s.c.phase.batches[0];
      WiresConcat(w.s.h.sent, first);
      LastBody(site, first);
      if w.s.h.sent == [] { NoWires(w.s.h.sent); }
    }
  }

  lemma LastBody(site: Site, b: seq<Queued>)
    requires b != []
    ensures BodyOf(site.key, b).entries == Wires(b)
  {
  }

  lemma NoWires(b: seq<Queued>)
    requires b == []
    ensures Wires(b) == []
  {
  }

  lemma ArriveInv(site: Site, w: World, i: nat, meterOk: bool, now: int)
    requires site.cfg.Valid() && Inv(site, w) && i < |w.wire|
    ensures Inv(site, Happened(site, w, Arrive(i, meterOk, now)))
  {
    hide DR.Inv, Known, Wires, Handle, Parses, BodyOf, MadeUnder;
    var w', body := Happened(site, w, Arrive(i, meterOk, now)), w.wire[i];
    HandleKeeps(w.server, body, meterOk, now);
    assert body.key == site.key;
    GrownTable(w.server.rows, w'.server.rows);
    forall row | row in w'.server.rows
      ensures RowKnown(site, w.s, row)
    {
      if row !in w.server.rows {
        assert RowOf(site.sources, body, now, row);
        var e :| e in body.entries && Parses(e) && MadeUnder(row, body.resource, e, site.sources[site.key], now);
        assert Known(w.s, body.resource, e);
      }
    }
  }

  lemma GrownTable(rows: seq<Row>, rows': seq<Row>)
    requires rows <= rows'
    ensures forall k | Stored(rows, k) :: Stored(rows', k)
  {
    forall k | Stored(rows, k)
      ensures Stored(rows', k)
    {
      var i :| 0 <= i < |rows| && rows[i].key == k;
      assert rows'[i].key == k;
    }
  }

  lemma StartInv(site: Site)
    requires site.cfg.Valid()
    ensures Inv(site, Start(site))
  {
    DR.InitialInv(site.cfg);
  }

  lemma {:induction false} HistoryInv(site: Site, xs: seq<Happening>)
    requires site.cfg.Valid() && WorldAfter(site, xs).Some?
    ensures Inv(site, WorldAfter(site, xs).value)
    decreases |xs|
  {
    hide Inv, Happened, CanHappen;
    if xs == [] { StartInv(site); }
    else {
      HistoryInv(site, Front(xs));
      var w := WorldAfter(site, Front(xs)).value;
      HappenedInv(site, w, Last(xs));
    }
  }

  lemma HappenedInv(site: Site, w: World, x: Happening)
    requires site.cfg.Valid() && Inv(site, w) && CanHappen(site, w, x)
    ensures Inv(site, Happened(site, w, x))
  {
    hide DR.Inv, Next, Remember, WireKnown, Current, TableKnown, HandledStored, SentStored, Metered, Handle, OnWire;
    match x
    case ClientStep(e) =>
      ClientStepWire(site, w, e);
      ClientStepStored(site, w, e);
    case Arrive(i, meterOk, now) => ArriveInv(site, w, i, meterOk, now);
  }

  /**
   * Exactly once, over every run: no key is stored twice, every entry the client
   * counts as sent that parses at the edge is stored, every row is made
   * of an entry taken in, under a resource of that entry's own group, and the
   * meter counts stored rows and nothing else.
   */
  lemma StoredExactlyOnce(site: Site, xs: seq<Happening>)
    requires site.cfg.Valid() && WorldAfter(site, xs).Some?
    ensures var w := WorldAfter(site, xs).value;
            && KeysDistinct(w.server.rows)
            && (forall x | x in w.s.h.sent && Parses(x.load.wire) ::
                  site.key in site.sources && Stored(w.server.rows, KeyOf(site, x.load.wire)))
            && (forall row | row in w.server.rows :: RowKnown(site, w.s, row))
            && w.server.meter <= |w.server.rows|
            && (!w.meterFailed ==> w.server.meter == |w.server.rows|)
  {
    hide DR.Inv, Known, RowKnown, KeyOf, Parses, Wires, Stored;
    HistoryInv(site, xs);
    WiresMembers(WorldAfter(site, xs).value.s.h.sent);
  }
}
