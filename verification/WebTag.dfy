/**
 * The browser tag: consent, session and buffer, updated in place by every
 * command. Ghost fields remember everything ever recorded, sent, stored or
 * derived, so that what the tag promises about a visit is a property of the
 * whole of it.
 */
module WebTag {
  import opened Sequences

  const KEY_CONSENT := "_frc"
  const KEY_SESSION := "_frs"
  const MAX_BUFFER := 50
  const SESSION_IDLE_MS := 1800000
  const SEV_INFO := 9
  const SEV_ERROR := 17

  datatype Mode = Immediate | Interval | Manual

  datatype Entry = Entry(id: string, time: int, name: string, severity: Option<int>, data: string)

  /** What the page says when it is asked; hosts are as the URL parser gives them, "" for none. */
  datatype PageInfo = PageInfo(path: string, host: string, referrerHost: string)

  /** What the session key holds. */
  datatype Session = Session(lastSeen: int, ref: string, id: string)

  datatype Config = Config(mode: Mode, flushSeverity: int, ephemeral: bool, fingerprint: bool)

  /** The parts of the environment that answer rather than keep: reading and writing the session key, minting ids. */
  datatype Env = Env(read: string -> Session, write: Session -> string, uuid: nat -> string, derive: () -> Option<string>)

  /** One send: `recorded[first..next]`, in what state of consent, and where the last withdrawal had cut. */
  datatype Send = Send(first: nat, next: nat, consented: bool, cut: nat, user: Option<string>)

  datatype Write = Write(key: string, consented: bool)

  /** Everything ever recorded, where it went, and how much of it there was at the last withdrawal. */
  datatype Past = Past(recorded: seq<Entry>, sends: seq<Send>, dropped: nat, discarded: nat, cut: nat)

  function Sent(sends: seq<Send>): int { if sends == [] then 0 else Sent(Front(sends)) + Last(sends).next - Last(sends).first }

  /** A send is of entries recorded since the last withdrawal before it, and made with consent. */
  predicate Proper(s: Send) { s.consented && s.cut <= s.first < s.next }

  /**
   * The buffer is what was recorded last, and nothing in it is older than the
   * last withdrawal. Everything else recorded was sent once, dropped, or
   * discarded by a withdrawal.
   */
  ghost predicate Account(p: Past, buffer: seq<Entry>) {
    && p.cut + |buffer| <= |p.recorded| && Latest(buffer, p.recorded)
    && |p.recorded| == Sent(p.sends) + p.dropped + p.discarded + |buffer|
    && Orderly(p.sends, |p.recorded| - |buffer|)
  }

  predicate Latest(buffer: seq<Entry>, recorded: seq<Entry>) {
    |buffer| <= |recorded| && forall k | 0 <= k < |buffer| :: buffer[k] == recorded[|recorded| - |buffer| + k]
  }

  /** Proper sends of separate stretches, in order, all before what is still buffered. */
  predicate Orderly(sends: seq<Send>, limit: int) {
    && (forall i | 0 <= i < |sends| :: Proper(sends[i]) && sends[i].next <= limit)
    && (forall i, j | 0 <= i < j < |sends| :: sends[i].next <= sends[j].first)
  }

  /** A bounded buffer after one more entry. */
  function Pushed(buffer: seq<Entry>, e: Entry): seq<Entry> {
    (if |buffer| >= MAX_BUFFER then buffer[1..] else buffer) + [e]
  }

  function AfterPush(p: Past, buffer: seq<Entry>, e: Entry): Past {
    p.(recorded := p.recorded + [e], dropped := p.dropped + if |buffer| >= MAX_BUFFER then 1 else 0)
  }

  lemma PushAccount(p: Past, buffer: seq<Entry>, e: Entry)
    requires Account(p, buffer) && |buffer| <= MAX_BUFFER
    ensures Account(AfterPush(p, buffer, e), Pushed(buffer, e)) && |Pushed(buffer, e)| == Min(|buffer| + 1, MAX_BUFFER)
  {
    hide Proper;
  }

  lemma NothingYet()
    ensures Account(Past([], [], 0, 0, 0), [])
  {
  }

  function AfterSend(p: Past, buffer: seq<Entry>, consented: bool, user: Option<string>): Past
    requires |buffer| <= |p.recorded|
  {
    p.(sends := p.sends + [Send(|p.recorded| - |buffer|, |p.recorded|, consented, p.cut, user)])
  }

  lemma AccountFits(p: Past, buffer: seq<Entry>)
    requires Account(p, buffer)
    ensures |buffer| <= |p.recorded|
  {
  }

  lemma SendAccount(p: Past, buffer: seq<Entry>, consented: bool, user: Option<string>)
    requires Account(p, buffer) && buffer != [] && consented
    ensures Account(AfterSend(p, buffer, consented, user), [])
  {
    hide Sent, Orderly;
    var s := Send(|p.recorded| - |buffer|, |p.recorded|, consented, p.cut, user);
    SentGrows(p.sends, s);
    OrderlyGrows(p.sends, s.first, s);
  }

  lemma SentGrows(sends: seq<Send>, s: Send)
    ensures Sent(sends + [s]) == Sent(sends) + s.next - s.first
  {
    assert Front(sends + [s]) == sends;
  }

  lemma OrderlyGrows(sends: seq<Send>, limit: int, s: Send)
    requires Orderly(sends, limit) && Proper(s) && limit <= s.first
    ensures Orderly(sends + [s], s.next)
  {
    hide Proper;
    assert s.first <= s.next by { ProperRuns(s); }
    var all := sends + [s];
    forall i | 0 <= i < |all|
      ensures Proper(all[i]) && all[i].next <= s.next
    {
      if i < |sends| { assert all[i] == sends[i]; }
    }
    forall i, j | 0 <= i < j < |all|
      ensures all[i].next <= all[j].first
    {
      assert all[i] == sends[i];
      if j < |sends| { assert all[j] == sends[j]; }
    }
  }

  lemma ProperRuns(s: Send)
    requires Proper(s)
    ensures s.first < s.next
  {
  }

  function AfterWithdrawal(p: Past, buffer: seq<Entry>): Past {
    p.(discarded := p.discarded + |buffer|, cut := |p.recorded|)
  }

  lemma WithdrawAccount(p: Past, buffer: seq<Entry>)
    requires Account(p, buffer)
    ensures Account(AfterWithdrawal(p, buffer), [])
  {
  }

  /** `later` is `p` with more recorded and more sent. */
  predicate Grew(p: Past, later: Past) { p.recorded <= later.recorded && p.sends <= later.sends }

  /** What a visitor or a page may do, with what the clock and the page say at the time. */
  datatype Command =
    | Consent(granted: bool)
    | Event(name: string, data: string, info: PageInfo, now: int)
    | Error(data: string, info: PageInfo, now: int)
    | Log(name: string, severity: Option<int>, data: string, time: Option<int>, info: PageInfo, now: int)
    | Page(info: PageInfo, data: string, now: int)
    | Navigated(info: PageInfo, data: string, now: int)
    | Leave(data: string, now: int)
    | Vital(metric: string, data: string, now: int)
    | User(id: Option<string>, now: int)
    | Device(id: Option<string>)
    | SetSession(session: string, now: int)
    | Flush
    | Timer

  const VITALS := {"LCP", "INP", "CLS", "FCP", "TTFB"}

  // ---------------------------------------------------------------------------
  // What a visit says
  // ---------------------------------------------------------------------------

  /** An entry but for its id. */
  datatype Fact = Fact(name: string, severity: Option<int>, data: string, time: int)

  function FactOf(e: Entry): Fact { Fact(e.name, e.severity, e.data, e.time) }

  /** Exactly these facts were recorded, in this order, after what was there. */
  ghost predicate Wrote(before: seq<Entry>, after: seq<Entry>, facts: seq<Fact>) {
    && before <= after && |after| == |before| + |facts|
    && forall k | 0 <= k < |facts| :: FactOf(after[|before| + k]) == facts[k]
  }

  lemma WroteNothing(before: seq<Entry>)
    ensures Wrote(before, before, [])
  {
  }

  lemma WroteOne(before: seq<Entry>, e: Entry)
    ensures Wrote(before, before + [e], [FactOf(e)])
  {
  }

  lemma WroteThen(a: seq<Entry>, b: seq<Entry>, c: seq<Entry>, first: seq<Fact>, second: seq<Fact>)
    requires Wrote(a, b, first) && Wrote(b, c, second)
    ensures Wrote(a, c, first + second)
  {
    forall k | 0 <= k < |first + second|
      ensures FactOf(c[|a| + k]) == (first + second)[k]
    {
      if k < |first| { assert c[|a| + k] == b[|a| + k]; }
    }
  }

  /** What the tag goes by when it decides what to record. */
  datatype Book = Book(
    lastSeen: int, lastRef: string, lastPath: Option<string>, leaveDue: bool, vitals: set<string>, user: Option<string>)

  /** An internal navigation brings no referrer. */
  function Referrer(info: PageInfo): string { if info.referrerHost == info.host then "" else info.referrerHost }

  /** A visit ends by idleness or by arriving from somewhere else. */
  predicate Ends(b: Book, info: PageInfo, now: int) {
    now - b.lastSeen > SESSION_IDLE_MS || (Referrer(info) != "" && Referrer(info) != b.lastRef)
  }

  /** What activity at this moment says of itself: the start of a visit, if the one before it had ended. */
  function Opening(b: Book, info: PageInfo, now: int): seq<Fact> {
    if Ends(b, info, now) then [Fact("session_start", Some(SEV_INFO), "", now)] else []
  }

  function Active(b: Book, info: PageInfo, now: int): Book {
    b.(lastSeen := now, lastRef := if Ends(b, info, now) then Referrer(info) else b.lastRef)
  }

  function Leaving(b: Book, data: string, now: int): seq<Fact> {
    if b.leaveDue then [Fact("page_leave", Some(SEV_INFO), data, now)] else []
  }

  function Named(id: Option<string>): Option<string> { if id == Some("") then None else id }

  /** What a command records. */
  function Noted(b: Book, c: Command): seq<Fact> {
    match c
    case Event(name, data, info, now) => Opening(b, info, now) + [Fact(name, Some(SEV_INFO), data, now)]
    case Error(data, info, now) => Opening(b, info, now) + [Fact("exception", Some(SEV_ERROR), data, now)]
    case Log(name, severity, data, time, info, now) =>
      if name == "" then []
      else Opening(b, info, now) +
           [Fact(name, if severity == Some(0) then None else severity, data, if time.Some? then time.value else now)]
    case Page(info, data, now) => Opening(b, info, now) + [Fact("page_view", Some(SEV_INFO), data, now)]
    case Navigated(info, data, now) =>
      if b.lastPath == Some(info.path) then []
      else Leaving(b, data, now) + (Opening(b, info, now) + [Fact("page_view", Some(SEV_INFO), data, now)])
    case Leave(data, now) => Leaving(b, data, now)
    case Vital(metric, data, now) =>
      if metric !in VITALS || metric in b.vitals then [] else [Fact("web_vital", Some(SEV_INFO), data, now)]
    case _ => []
  }

  /** What it leaves the tag to go by. */
  function Turned(b: Book, c: Command): Book {
    match c
    case Event(_, _, info, now) => Active(b, info, now)
    case Error(_, info, now) => Active(b, info, now)
    case Log(name, _, _, _, info, now) => if name == "" then b else Active(b, info, now)
    case Page(info, _, now) => Active(b, info, now).(lastPath := Some(info.path), leaveDue := true)
    case Navigated(info, _, now) =>
      if b.lastPath == Some(info.path) then b else Active(b, info, now).(lastPath := Some(info.path), leaveDue := true)
    case Leave(_, _) => b.(leaveDue := false)
    case Vital(metric, _, _) => if metric !in VITALS then b else b.(vitals := b.vitals + {metric})
    case User(id, now) => if Named(id) == b.user then b else b.(user := Named(id), lastSeen := now)
    case SetSession(_, now) => b.(lastSeen := now)
    case _ => b
  }

  function BookAfter(b: Book, commands: seq<Command>): Book {
    if commands == [] then b else Turned(BookAfter(b, Front(commands)), Last(commands))
  }

  /** What a whole visit records: what each command does, in order. */
  function Story(b: Book, commands: seq<Command>): seq<Fact> {
    if commands == [] then []
    else Story(b, Front(commands)) + Noted(BookAfter(b, Front(commands)), Last(commands))
  }

  lemma KeysDiffer()
    ensures KEY_CONSENT != KEY_SESSION
  {
    assert KEY_CONSENT[3] == 'c' && KEY_SESSION[3] == 's';
  }

  class Tag {
    const config: Config
    const env: Env

    var consented: bool
    var deviceId: Option<string>
    var userId: Option<string>
    var sessionId: string
    var buffer: seq<Entry>
    var dropped: nat
    var armed: bool
    var lastSeen: int
    var lastRef: string
    var lastPath: Option<string>
    var leaveDue: bool
    var vitalsSent: set<string>

    /** The storage behind the tag, and how many ids it has minted. */
    var store: map<string, string>
    var minted: nat

    ghost var past: Past
    ghost var writes: seq<Write>
    ghost var prints: seq<bool>
    /** A withdrawal stands: the last answer was no. */
    ghost var withdrawn: bool

    function FlushAt(): Option<nat> { if config.mode == Manual then None else Some(MAX_BUFFER) }

    /** Stored and derived only with consent; while a withdrawal stands the store holds neither key. */
    ghost predicate Clean()
      reads this`writes, this`prints, this`withdrawn, this`consented, this`store
    {
      && (forall i | 0 <= i < |writes| :: writes[i].consented)
      && (forall i | 0 <= i < |prints| :: prints[i])
      && (withdrawn ==> !consented && KEY_CONSENT !in store && KEY_SESSION !in store)
    }

    /** Between the two entries of one command. */
    ghost predicate Sound()
      reads this
    {
      |buffer| <= MAX_BUFFER && Account(past, buffer) && dropped == past.dropped && Clean()
    }

    /** Nothing that could go is left without a way to go. */
    ghost predicate Scheduled()
      reads this
    {
      consented ==>
        && (config.mode != Manual ==> |buffer| < MAX_BUFFER)
        && (config.mode == Immediate && buffer != [] ==> armed)
    }

    ghost predicate Valid()
      reads this
    {
      Sound() && Scheduled()
    }

    /** A tag before it has looked at what is stored. */
    ghost predicate Blank()
      reads this
    {
      && !consented && !withdrawn && buffer == [] && dropped == 0
      && past == Past([], [], 0, 0, 0) && writes == [] && prints == []
    }

    constructor (config: Config, env: Env, store: map<string, string>)
      ensures Valid() && Blank() && this.config == config && this.env == env && this.store == store && deviceId.None?
    {
      this.config, this.env, this.store := config, env, store;
      consented, deviceId, userId := false, None, None;
      sessionId, minted := env.uuid(0), 1;
      buffer, dropped, armed := [], 0, false;
      lastSeen, lastRef, lastPath, leaveDue, vitalsSent := 0, "", None, false, {};
      past, writes, prints, withdrawn := Past([], [], 0, 0, 0), [], [], false;
      new;
      hide Account;
      NothingYet();
    }

    /** The stored answer to the banner. */
    predicate Answered()
      reads this`store
    {
      config.ephemeral || (KEY_CONSENT in store && store[KEY_CONSENT] == "1")
    }

    /** A returning visitor already answered; a stored visit goes on only while its clock says so. */
    method Recall(now: int)
      requires Valid() && Blank()
      modifies this`consented, this`lastSeen, this`lastRef, this`sessionId, this`deviceId, this`prints
      ensures Valid() && consented == Answered()
      ensures consented && KEY_SESSION in store && env.read(store[KEY_SESSION]).id != "" &&
              now - env.read(store[KEY_SESSION]).lastSeen <= SESSION_IDLE_MS ==>
                sessionId == env.read(store[KEY_SESSION]).id
      ensures prints != [] ==> config.fingerprint && consented
      ensures consented ==>
                var s := if KEY_SESSION in store then env.read(store[KEY_SESSION]) else Session(0, "", "");
                && lastSeen == s.lastSeen && lastRef == s.ref
                && sessionId == (if s.id != "" && now - s.lastSeen <= SESSION_IDLE_MS then s.id else old(sessionId))
                && deviceId == (if old(deviceId).None? && config.fingerprint then env.derive() else old(deviceId))
      ensures !consented ==> lastSeen == old(lastSeen) && lastRef == old(lastRef)
      ensures !consented ==> sessionId == old(sessionId) && deviceId == old(deviceId)
    {
      hide Account;
      if Answered() {
        consented := true;
        var s := if KEY_SESSION in store then env.read(store[KEY_SESSION]) else Session(0, "", "");
        lastSeen, lastRef := s.lastSeen, s.ref;
        if s.id != "" && now - lastSeen <= SESSION_IDLE_MS { sessionId := s.id; }
        DeriveDevice();
      }
    }

    // -------------------------------------------------------------------------
    // The buffer
    // -------------------------------------------------------------------------

    method Push(e: Entry)
      requires Sound()
      modifies this`buffer, this`dropped, this`past
      ensures Sound() && buffer == Pushed(old(buffer), e) && past == AfterPush(old(past), old(buffer), e)
      ensures |buffer| == Min(|old(buffer)| + 1, MAX_BUFFER)
    {
      hide Account;
      PushAccount(past, buffer, e);
      past := AfterPush(past, buffer, e);
      if |buffer| >= MAX_BUFFER {
        buffer := buffer[1..];
        dropped := dropped + 1;
      }
      buffer := buffer + [e];
    }

    /** Emptied before the send, and never retried. */
    method FlushBuffer()
      requires Sound()
      modifies this`buffer, this`past
      ensures Sound()
      ensures !consented || old(buffer) == [] ==> buffer == old(buffer) && past == old(past)
      ensures consented && old(buffer) != [] ==>
                buffer == [] && |old(buffer)| <= |old(past).recorded| && past == AfterSend(old(past), old(buffer), consented, userId)
      ensures Flushed()
    {
      hide Account;
      if !consented || |buffer| == 0 { return; }
      AccountFits(past, buffer);
      SendAccount(past, buffer, consented, userId);
      past := AfterSend(past, buffer, consented, userId);
      buffer := [];
    }

    predicate SendsNow(severity: Option<int>, depth: nat) {
      (if severity.Some? then severity.value else 0) >= config.flushSeverity || (FlushAt().Some? && depth >= FlushAt().value)
    }

    /** Makes an entry and buffers it. Severity or a full batch sends it, an immediate tag opens a window for it. */
    method Emit(name: string, severity: Option<int>, data: string, time: int)
      requires Sound()
      modifies this`buffer, this`dropped, this`past, this`armed, this`minted
      ensures Valid() && Grew(old(past), past)
      ensures past.recorded == old(past).recorded +
                [Entry(env.uuid(old(minted)), time, name, if severity == Some(0) then None else severity, data)]
      ensures Wrote(old(past).recorded, past.recorded, [Fact(name, if severity == Some(0) then None else severity, data, time)])
      ensures dropped == old(dropped) + if |old(buffer)| >= MAX_BUFFER then 1 else 0
      // Out at once on severity or a full batch, with consent; otherwise not at all.
      ensures if consented && SendsNow(severity, Min(|old(buffer)| + 1, MAX_BUFFER))
              then buffer == [] && |past.sends| == |old(past).sends| + 1 else past.sends == old(past).sends
    {
      hide Account;
      var e := Entry(env.uuid(minted), time, name, if severity == Some(0) then None else severity, data);
      minted := minted + 1;
      WroteOne(past.recorded, e);
      Push(e);
      if !consented { return; }
      if SendsNow(severity, |buffer|) {
        FlushBuffer();
      } else if config.mode == Immediate && !armed {
        armed := true;
      }
    }

    method Flush()
      requires Valid()
      modifies this`buffer, this`past
      ensures Valid() && Grew(old(past), past) && Flushed()
    {
      hide Account;
      FlushBuffer();
    }

    /** The coalescing window closes. */
    method WindowCloses()
      requires Valid() && armed
      modifies this`buffer, this`past, this`armed
      ensures Valid() && !armed && Grew(old(past), past) && Flushed()
    {
      hide Account;
      armed := false;
      FlushBuffer();
    }

    // -------------------------------------------------------------------------
    // The session
    // -------------------------------------------------------------------------

    function Bearings(): Book
      reads this`lastSeen, this`lastRef, this`lastPath, this`leaveDue, this`vitalsSent, this`userId
    {
      Book(lastSeen, lastRef, lastPath, leaveDue, vitalsSent, userId)
    }

    predicate Cuts(info: PageInfo, now: int)
      reads this`lastSeen, this`lastRef
    {
      now - lastSeen > SESSION_IDLE_MS || (Referrer(info) != "" && Referrer(info) != lastRef)
    }

    /** How full the buffer is once activity and one entry are recorded. */
    function Depth(info: PageInfo, now: int): nat
      reads this`lastSeen, this`lastRef, this`buffer
    {
      Min(|buffer| + if Cuts(info, now) then 2 else 1, MAX_BUFFER)
    }

    method SaveSession()
      requires Clean()
      modifies this`store, this`writes
      ensures Clean() && (!consented ==> writes == old(writes))
      ensures store == if consented && lastSeen != 0
                       then old(store)[KEY_SESSION := env.write(Session(lastSeen, lastRef, sessionId))] else old(store)
    {
      if consented && lastSeen != 0 {
        store := store[KEY_SESSION := env.write(Session(lastSeen, lastRef, sessionId))];
        writes := writes + [Write(KEY_SESSION, consented)];
      }
    }

    /** Moves the idle clock; where the visit had ended, opens the next one with an entry that says so. */
    method Bump(info: PageInfo, now: int)
      requires Sound()
      modifies this`sessionId, this`lastRef, this`lastSeen, this`store, this`writes, this`minted,
               this`buffer, this`dropped, this`past
      ensures Sound() && lastSeen == now && Grew(old(past), past) && past.sends == old(past).sends
      ensures !consented ==> writes == old(writes)
      ensures store == if consented && now != 0
                       then old(store)[KEY_SESSION := env.write(Session(now, lastRef, sessionId))] else old(store)
      ensures |buffer| == Min(|old(buffer)| + if old(Cuts(info, now)) then 1 else 0, MAX_BUFFER)
      ensures dropped == old(dropped) + if old(Cuts(info, now)) && |old(buffer)| >= MAX_BUFFER then 1 else 0
      ensures !old(Cuts(info, now)) ==> past == old(past) && sessionId == old(sessionId) && lastRef == old(lastRef)
      ensures old(Cuts(info, now)) ==> sessionId == env.uuid(old(minted)) && lastRef == Referrer(info)
      ensures Wrote(old(past).recorded, past.recorded,
                    if old(Cuts(info, now)) then [Fact("session_start", Some(SEV_INFO), "", now)] else [])
    {
      hide Account;
      WroteNothing(past.recorded);
      if Cuts(info, now) {
        WroteOne(past.recorded, Entry(env.uuid(minted + 1), now, "session_start", Some(SEV_INFO), ""));
        sessionId := env.uuid(minted);
        lastRef := Referrer(info);
        Push(Entry(env.uuid(minted + 1), now, "session_start", Some(SEV_INFO), ""));
        minted := minted + 2;
      }
      lastSeen := now;
      SaveSession();
    }

    /**
     * Activity and its entry. With consent, outside manual mode, an entry is
     * dropped exactly when a `session_start` lands on a 49-deep buffer.
     */
    method Record(info: PageInfo, name: string, severity: Option<int>, data: string, time: Option<int>, now: int)
      requires Valid()
      modifies this`sessionId, this`lastRef, this`lastSeen, this`store, this`writes, this`minted,
               this`buffer, this`dropped, this`past, this`armed
      ensures Valid() && Grew(old(past), past)
      ensures old(consented) && config.mode != Manual ==>
                dropped == old(dropped) + if old(Cuts(info, now)) && |old(buffer)| == MAX_BUFFER - 1 then 1 else 0
      ensures Wrote(old(past).recorded, past.recorded,
                    old(Opening(Bearings(), info, now)) +
                    [Fact(name, if severity == Some(0) then None else severity, data, if time.Some? then time.value else now)])
      ensures Bearings() == Active(old(Bearings()), info, now)
      ensures if consented && SendsNow(severity, old(Depth(info, now)))
              then buffer == [] && |past.sends| == |old(past).sends| + 1 else past.sends == old(past).sends
      ensures !consented ==> writes == old(writes)
    {
      hide Account, Wrote;
      ghost var before := past.recorded;
      Bump(info, now);
      ghost var between := past.recorded;
      Emit(name, severity, data, if time.Some? then time.value else now);
      WroteThen(before, between, past.recorded, old(Opening(Bearings(), info, now)),
                [Fact(name, if severity == Some(0) then None else severity, data, if time.Some? then time.value else now)]);
    }

    method SetSession(id: string, now: int)
      requires Valid()
      modifies this`sessionId, this`lastSeen, this`store, this`writes
      ensures Valid() && sessionId == id && lastSeen == now && (!consented ==> writes == old(writes))
      ensures store == if consented && now != 0
                       then old(store)[KEY_SESSION := env.write(Session(now, lastRef, id))] else old(store)
    {
      hide Account;
      sessionId := id;
      lastSeen := now;
      SaveSession();
    }

    // -------------------------------------------------------------------------
    // Consent and identity
    // -------------------------------------------------------------------------

    /** Needs both the option and consent, and never replaces an id that is there. */
    method DeriveDevice()
      requires Clean()
      modifies this`deviceId, this`prints
      ensures Clean()
      ensures old(deviceId).Some? || !config.fingerprint || !consented ==> deviceId == old(deviceId) && prints == old(prints)
      ensures old(deviceId).None? && config.fingerprint && consented ==> deviceId == env.derive()
    {
      if deviceId.Some? || !config.fingerprint || !consented { return; }
      deviceId := env.derive();
      prints := prints + [consented];
    }

    method SetConsent(granted: bool)
      requires Valid()
      modifies this`consented, this`withdrawn, this`deviceId, this`buffer, this`store, this`past, this`writes, this`prints
      ensures Valid() && consented == granted && Grew(old(past), past) && past.recorded == old(past).recorded && buffer == []
      ensures granted ==> KEY_CONSENT in store && store[KEY_CONSENT] == "1" && past.discarded == old(past).discarded
      ensures granted && lastSeen != 0 ==>
                KEY_SESSION in store && store[KEY_SESSION] == env.write(Session(lastSeen, lastRef, sessionId))
      // What waited for the answer goes out at once, in one send.
      ensures granted ==> |past.sends| == |old(past).sends| + if old(buffer) == [] then 0 else 1
      ensures granted ==> deviceId == if old(deviceId).None? && config.fingerprint then env.derive() else old(deviceId)
      // Nothing goes out on a withdrawal, or ever after of what was recorded before it.
      ensures !granted ==> deviceId == None && past == AfterWithdrawal(old(past), old(buffer))
      ensures !granted ==> KEY_CONSENT !in store && KEY_SESSION !in store && withdrawn
      ensures !granted ==> writes == old(writes) && prints == old(prints)
    {
      hide Account;
      if granted {
        consented := true;
        withdrawn := false;
        store := store[KEY_CONSENT := "1"];
        writes := writes + [Write(KEY_CONSENT, consented)];
        DeriveDevice();
        SaveSession();
        KeysDiffer();
        FlushBuffer();
      } else {
        WithdrawAccount(past, buffer);
        past := AfterWithdrawal(past, buffer);
        consented := false;
        deviceId := None;
        buffer := [];
        store := store - {KEY_CONSENT, KEY_SESSION};
        withdrawn := true;
      }
    }

    /** A change of user, to nobody included, is a change of session. */
    method SetUser(id: Option<string>, now: int)
      requires Valid()
      modifies this`userId, this`sessionId, this`lastSeen, this`store, this`writes, this`minted
      ensures Valid() && userId == (if id == Some("") then None else id)
      ensures Bearings() == Turned(old(Bearings()), Command.User(id, now))
      ensures userId == old(userId) ==> sessionId == old(sessionId) && store == old(store) && lastSeen == old(lastSeen)
      ensures userId != old(userId) ==> sessionId == env.uuid(old(minted)) && lastSeen == now
      ensures !consented ==> writes == old(writes)
    {
      hide Account;
      var next := if id == Some("") then None else id;
      if next == userId { return; }
      userId := next;
      var visit := env.uuid(minted);
      minted := minted + 1;
      SetSession(visit, now);
    }

    // -------------------------------------------------------------------------
    // The rest of the vocabulary
    // -------------------------------------------------------------------------

    method Page(info: PageInfo, data: string, now: int)
      requires Valid()
      modifies this
      ensures Valid() && Grew(old(past), past)
      ensures Wrote(old(past).recorded, past.recorded, Noted(old(Bearings()), Command.Page(info, data, now)))
      ensures Bearings() == Turned(old(Bearings()), Command.Page(info, data, now))
      ensures if consented && SendsNow(Some(SEV_INFO), old(Depth(info, now)))
              then buffer == [] && |past.sends| == |old(past).sends| + 1 else past.sends == old(past).sends
      ensures consented == old(consented) && withdrawn == old(withdrawn) && prints == old(prints)
      ensures !consented ==> past.sends == old(past).sends && writes == old(writes)
    {
      hide Account;
      lastPath := Some(info.path);
      leaveDue := true;
      Record(info, "page_view", Some(SEV_INFO), data, None, now);
    }

    /** Once a page view, and never the cause of a dropped entry. */
    method Leave(data: string, now: int)
      requires Valid()
      modifies this`leaveDue, this`buffer, this`dropped, this`past, this`armed, this`minted
      ensures Valid() && !leaveDue && Grew(old(past), past)
      ensures Wrote(old(past).recorded, past.recorded, Noted(old(Bearings()), Command.Leave(data, now)))
      ensures Bearings() == Turned(old(Bearings()), Command.Leave(data, now))
      ensures !old(leaveDue) ==> past == old(past) && buffer == old(buffer)
      ensures consented && config.mode != Manual ==> dropped == old(dropped)
      ensures !consented ==> past.sends == old(past).sends
    {
      hide Account;
      WroteNothing(past.recorded);
      if !leaveDue { return; }
      leaveDue := false;
      Emit("page_leave", Some(SEV_INFO), data, now);
    }

    /** Only where the path moved: the old route is left, the new one viewed. */
    method Navigated(info: PageInfo, data: string, now: int) returns (fired: bool)
      requires Valid()
      modifies this
      ensures Valid() && fired == (old(lastPath) != Some(info.path)) && Grew(old(past), past)
      ensures !fired ==> past == old(past) && buffer == old(buffer)
      ensures Wrote(old(past).recorded, past.recorded, Noted(old(Bearings()), Command.Navigated(info, data, now)))
      ensures Bearings() == Turned(old(Bearings()), Command.Navigated(info, data, now))
      ensures consented == old(consented) && withdrawn == old(withdrawn) && prints == old(prints)
      ensures !consented ==> past.sends == old(past).sends && writes == old(writes)
    {
      hide Account, Wrote;
      WroteNothing(past.recorded);
      if lastPath == Some(info.path) { return false; }
      ghost var before, b := past.recorded, Bearings();
      Leave(data, now);
      ghost var between, left := past.recorded, Bearings();
      Page(info, data, now);
      WroteThen(before, between, past.recorded, Leaving(b, data, now), Noted(left, Command.Page(info, data, now)));
      fired := true;
    }

    /** One of five metrics, once per document. */
    method Vital(metric: string, data: string, now: int)
      requires Valid()
      modifies this`vitalsSent, this`buffer, this`dropped, this`past, this`armed, this`minted
      ensures Valid() && Grew(old(past), past)
      ensures metric in old(vitalsSent) || metric !in VITALS ==> past == old(past)
      ensures Wrote(old(past).recorded, past.recorded, Noted(old(Bearings()), Command.Vital(metric, data, now)))
      ensures Bearings() == Turned(old(Bearings()), Command.Vital(metric, data, now))
      ensures consented && config.mode != Manual ==> dropped == old(dropped)
      ensures !consented ==> past.sends == old(past).sends
    {
      hide Account;
      WroteNothing(past.recorded);
      if metric !in VITALS || metric in vitalsSent { return; }
      vitalsSent := vitalsSent + {metric};
      Emit("web_vital", Some(SEV_INFO), data, now);
    }

    /** The customer's own word for the machine, if it is a word. */
    method SetDevice(id: Option<string>)
      requires Valid()
      modifies this`deviceId
      ensures Valid() && deviceId == (if id == Some("") then None else id)
    {
      hide Account;
      deviceId := if id == Some("") then None else id;
    }

    /** Exactly one entry is recorded, after a `session_start` exactly if the visit had ended. */
    twostate predicate RecordsOne(name: string, severity: Option<int>, data: string, time: int, info: PageInfo, now: int)
      reads this
    {
      && Wrote(old(past).recorded, past.recorded,
               (if old(Cuts(info, now)) then [Fact("session_start", Some(9), "", now)] else []) + [Fact(name, severity, data, time)])
      // It goes at once, with everything before it, on severity or a full buffer.
      && (if consented && SendsNow(severity, old(Depth(info, now)))
          then buffer == [] && |past.sends| == |old(past).sends| + 1 else past.sends == old(past).sends)
    }

    /** Nothing is recorded and nothing goes out. */
    twostate predicate Quiet()
      reads this
    {
      past == old(past) && buffer == old(buffer) && consented == old(consented)
    }

    /** The buffer goes out as one send, if there is consent and something in it, and otherwise stays as it was. */
    twostate predicate Flushed()
      reads this
    {
      && past.recorded == old(past).recorded && past.dropped == old(past).dropped && past.discarded == old(past).discarded
      && (consented ==> buffer == []) && (!consented ==> buffer == old(buffer))
      && (!consented || old(buffer) == [] ==> past == old(past))
      && (consented && old(buffer) != [] ==>
            && |past.sends| == |old(past).sends| + 1 && old(past).sends <= past.sends
            && Last(past.sends).first == |past.recorded| - |old(buffer)| && Last(past.sends).next == |past.recorded|
            && Last(past.sends).user == userId)
    }

    /** What each command does, a command at a time. */
    twostate predicate Does(c: Command)
      reads this
    {
      match c
      case Event(name, data, info, now) => RecordsOne(name, Some(9), data, now, info, now)
      case Error(data, info, now) => RecordsOne("exception", Some(17), data, now, info, now)
      case Log(name, severity, data, time, info, now) =>
        if name == "" then Quiet()
        else RecordsOne(name, if severity == Some(0) then None else severity, data, if time.Some? then time.value else now, info, now)
      case Page(info, data, now) => RecordsOne("page_view", Some(9), data, now, info, now) && lastPath == Some(info.path) && leaveDue
      case Navigated(info, data, now) =>
        if old(lastPath) == Some(info.path) then Quiet()
        else
          && lastPath == Some(info.path) && leaveDue
          && Wrote(old(past).recorded, past.recorded,
                   (if old(leaveDue) then [Fact("page_leave", Some(9), data, now)] else []) +
                   ((if old(Cuts(info, now)) then [Fact("session_start", Some(9), "", now)] else []) +
                    [Fact("page_view", Some(9), data, now)]))
      case Leave(data, now) =>
        !leaveDue &&
        Wrote(old(past).recorded, past.recorded, if old(leaveDue) then [Fact("page_leave", Some(9), data, now)] else [])
      case Vital(metric, data, now) =>
        Wrote(old(past).recorded, past.recorded,
              if metric in old(vitalsSent) || metric !in VITALS then [] else [Fact("web_vital", Some(9), data, now)])
      case Consent(granted) => consented == granted && buffer == [] && past.recorded == old(past).recorded
      case User(id, now) =>
        && Quiet() && userId == (if id == Some("") then None else id)
        && (userId != old(userId) ==> sessionId == env.uuid(old(minted)) && lastSeen == now)
        && (userId == old(userId) ==> sessionId == old(sessionId) && lastSeen == old(lastSeen))
      case Device(id) => Quiet() && deviceId == (if id == Some("") then None else id)
      case SetSession(id, now) => Quiet() && sessionId == id && lastSeen == now
      case Flush => Flushed()
      case Timer => Flushed() && !armed
    }

    /** The commands that record one entry or none. */
    method Say(c: Command)
      requires Valid() && (c.Event? || c.Error? || c.Log? || c.Leave? || c.Vital?)
      modifies this
      ensures Valid() && Grew(old(past), past) && Does(c) && prints == old(prints) && withdrawn == old(withdrawn)
      ensures consented == old(consented)
      ensures !consented ==> past.sends == old(past).sends && writes == old(writes)
      ensures Wrote(old(past).recorded, past.recorded, Noted(old(Bearings()), c)) && Bearings() == Turned(old(Bearings()), c)
    {
      hide Account, Wrote, Valid, Sound;
      WroteNothing(past.recorded);
      match c
      case Event(name, data, info, now) => Record(info, name, Some(SEV_INFO), data, None, now);
      case Error(data, info, now) => Record(info, "exception", Some(SEV_ERROR), data, None, now);
      case Log(name, severity, data, time, info, now) => if name != "" { Record(info, name, severity, data, time, now); }
      case Leave(data, now) => Leave(data, now);
      case Vital(metric, data, now) => Vital(metric, data, now);
      case _ =>
    }

    /** The commands that give an id. */
    method Identify(c: Command)
      requires Valid() && (c.User? || c.Device? || c.SetSession?)
      modifies this
      ensures Valid() && Does(c) && withdrawn == old(withdrawn) && prints == old(prints) && (!consented ==> writes == old(writes))
      ensures Bearings() == Turned(old(Bearings()), c)
    {
      hide Account, Wrote, Valid, Sound;
      match c
      case User(id, now) => SetUser(id, now);
      case Device(id) => SetDevice(id);
      case SetSession(id, now) => SetSession(id, now);
      case _ =>
    }

    /** One command, whatever it is: what it records, what it sends, and what it leaves. */
    method Call(c: Command)
      requires Valid() && (c.Timer? ==> armed)
      modifies this
      ensures Valid() && Grew(old(past), past)
      // While an answer is no, nothing is sent, stored or derived, and only a yes changes that.
      ensures !old(consented) && c != Consent(true) ==>
                !consented && past.sends == old(past).sends && writes == old(writes) && prints == old(prints)
      ensures old(withdrawn) && !consented ==> withdrawn
      ensures Does(c)
      // Whatever it is, it records what a visit says next.
      ensures Wrote(old(past).recorded, past.recorded, Noted(old(Bearings()), c)) && Bearings() == Turned(old(Bearings()), c)
    {
      hide Account, Wrote, Valid, Sound;
      WroteNothing(past.recorded);
      match c
      case Consent(granted) => SetConsent(granted);
      case Event(_, _, _, _) => Say(c);
      case Error(_, _, _) => Say(c);
      case Log(_, _, _, _, _, _) => Say(c);
      case Page(info, data, now) => Page(info, data, now);
      case Navigated(info, data, now) => var _ := Navigated(info, data, now);
      case Leave(_, _) => Say(c);
      case Vital(_, _, _) => Say(c);
      case User(_, _) => Identify(c);
      case Device(_) => Identify(c);
      case SetSession(_, _) => Identify(c);
      case Flush => Flush();
      case Timer => WindowCloses();
    }

    /**
     * Any visit: the promises hold of all of it, and what is recorded is what its
     * commands say, in order.
     */
    method Visit(commands: seq<Command>)
      requires Valid()
      modifies this
      ensures Valid() && Grew(old(past), past)
      ensures |past.recorded| == Sent(past.sends) + past.dropped + past.discarded + |buffer|
      ensures forall i | 0 <= i < |past.sends| :: Proper(past.sends[i])
      ensures Wrote(old(past).recorded, past.recorded, Story(old(Bearings()), commands))
      ensures Bearings() == BookAfter(old(Bearings()), commands)
    {
      hide Wrote, Noted, Turned;
      ghost var start, b := past.recorded, Bearings();
      WroteNothing(start);
      for i := 0 to |commands|
        invariant Valid() && Grew(old(past), past)
        invariant Wrote(start, past.recorded, Story(b, commands[..i])) && Bearings() == BookAfter(b, commands[..i])
      {
        assert Front(commands[..i + 1]) == commands[..i] && Last(commands[..i + 1]) == commands[i];
        ghost var before := past.recorded;
        if !commands[i].Timer? || armed { Call(commands[i]); } else { TimerIsNoted(Bearings(), commands[i], before); }
        WroteThen(start, before, past.recorded, Story(b, commands[..i]), Noted(BookAfter(b, commands[..i]), commands[i]));
      }
      assert commands[..|commands|] == commands;
    }

    lemma TimerIsNoted(b: Book, c: Command, recorded: seq<Entry>)
      requires c.Timer?
      ensures Wrote(recorded, recorded, Noted(b, c)) && Turned(b, c) == b
    {
    }
  }
}
