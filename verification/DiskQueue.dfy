/**
 * The Go client's durable mirror: one file of newline-terminated records,
 * extended by each pass that takes something in and replaced through a temporary
 * one when the backlog shrinks. The file is its characters; a crash keeps
 * whatever of them was there.
 */
module DiskQueues {
  import opened Sequences
  import opened Queues

  /** A line this long or longer stops the scan. */
  const MAX_RECORD_LINE := 0x10_0000

  /** `encodeRecord` without its newline, and `json.Unmarshal` with the check on the name; None where either fails. */
  datatype Codec<!T> = Codec(encode: T -> Option<string>, decode: string -> Option<T>)

  function Line<T>(c: Codec<T>, x: T): string {
    match c.encode(x)
    case None => ""
    case Some(s) => s + "\n"
  }

  function Encoded<T>(c: Codec<T>, xs: seq<T>): string {
    if xs == [] then "" else Line(c, xs[0]) + Encoded(c, xs[1..])
  }

  /** Where the first line ends. */
  function Cut(file: string): (n: nat)
    ensures n <= |file|
  {
    if file == "" || file[0] == '\n' then 0 else 1 + Cut(file[1..])
  }

  function Decoded<T>(c: Codec<T>, line: string): seq<T> {
    match c.decode(line)
    case None => []
    case Some(x) => [x]
  }

  /** What a scan of the file yields: unreadable lines cost themselves, a line too long ends it. */
  function ReadBack<T>(c: Codec<T>, file: string): seq<T>
    decreases |file|
  {
    if file == "" then []
    else
      var n := Cut(file);
      if n >= MAX_RECORD_LINE then []
      else Decoded(c, file[..n]) + if n == |file| then [] else ReadBack(c, file[n + 1..])
  }

  predicate Terminated(file: string) { file == "" || Last(file) == '\n' }

  /** No line stops the scan. */
  predicate Scannable(file: string)
    decreases |file|
  {
    file == "" || (Cut(file) < MAX_RECORD_LINE && (Cut(file) == |file| || Scannable(file[Cut(file) + 1..])))
  }

  /** A record that survives a round trip and of which no torn part passes for another. */
  ghost predicate Readable<T>(c: Codec<T>, x: T) {
    && c.encode(x).Some?
    && var s := c.encode(x).value;
       && '\n' !in s && |s| < MAX_RECORD_LINE && c.decode(s) == Some(x)
       && forall k | 0 <= k < |s| :: c.decode(s[..k]) == None
  }

  ghost predicate AllReadable<T>(c: Codec<T>, xs: seq<T>) { forall x | x in xs :: Readable(c, x) }

  // ---------------------------------------------------------------------------
  // Reading what was written
  // ---------------------------------------------------------------------------

  lemma {:induction false} CutAt(file: string)
    ensures var n := Cut(file);
            (n < |file| ==> file[n] == '\n') && forall i | 0 <= i < n :: file[i] != '\n'
    decreases |file|
  {
    if file != "" && file[0] != '\n' {
      CutAt(file[1..]);
      assert forall i | 0 < i < Cut(file) :: file[i] == file[1..][i - 1];
    }
  }

  lemma CutIs(file: string, n: nat)
    requires n <= |file| && (n < |file| ==> file[n] == '\n') && forall i | 0 <= i < n :: file[i] != '\n'
    ensures Cut(file) == n
  {
    hide Cut;
    CutAt(file);
  }

  lemma CutInside(file: string)
    requires file != "" && Terminated(file)
    ensures Cut(file) < |file|
  {
    hide Cut;
    CutAt(file);
  }

  lemma ReadStep<T>(c: Codec<T>, file: string)
    requires Cut(file) < |file|
    ensures Cut(file) < MAX_RECORD_LINE ==>
              ReadBack(c, file) == Decoded(c, file[..Cut(file)]) + ReadBack(c, file[Cut(file) + 1..])
    ensures Cut(file) >= MAX_RECORD_LINE ==> ReadBack(c, file) == []
    ensures Scannable(file) <==> Cut(file) < MAX_RECORD_LINE && Scannable(file[Cut(file) + 1..])
  {
    hide ReadBack, Scannable, Decoded, Cut;
    ReadUnfolds(c, file);
    ScanUnfolds(file);
  }

  lemma ReadUnfolds<T>(c: Codec<T>, file: string)
    requires Cut(file) < |file|
    ensures Cut(file) >= MAX_RECORD_LINE ==> ReadBack(c, file) == []
    ensures Cut(file) < MAX_RECORD_LINE ==>
              ReadBack(c, file) == Decoded(c, file[..Cut(file)]) + ReadBack(c, file[Cut(file) + 1..])
  {
    hide Decoded, Cut;
  }

  lemma ScanUnfolds(file: string)
    requires Cut(file) < |file|
    ensures Cut(file) >= MAX_RECORD_LINE ==> !Scannable(file)
    ensures Cut(file) < MAX_RECORD_LINE ==> (Scannable(file) <==> Scannable(file[Cut(file) + 1..]))
  {
    hide Cut;
  }

  lemma ReadLast<T>(c: Codec<T>, file: string)
    requires file != "" && Cut(file) == |file|
    ensures ReadBack(c, file) == if |file| < MAX_RECORD_LINE then Decoded(c, file) else []
  {
    assert file[..|file|] == file;
  }

  lemma ReadConcat<T>(c: Codec<T>, a: string, b: string)
    requires Terminated(a) && Scannable(a)
    ensures ReadBack(c, a + b) == ReadBack(c, a) + ReadBack(c, b)
    ensures Scannable(b) ==> Scannable(a + b)
  {
    hide ReadBack, Scannable, Terminated;
    BackConcat(c, a, b);
    if Scannable(b) { ScanConcat(a, b); }
  }

  lemma {:induction false} BackConcat<T>(c: Codec<T>, a: string, b: string)
    requires Terminated(a) && Scannable(a)
    ensures ReadBack(c, a + b) == ReadBack(c, a) + ReadBack(c, b)
    decreases |a|
  {
    hide ReadBack, Scannable, Decoded, Cut;
    if a == "" {
      assert a + b == b;
      NothingLeft(c);
    } else {
      var line, rest := FirstLine(a);
      ReadJoined(c, line, rest);
      ReadJoined(c, line, rest + b);
      BackConcat(c, rest, b);
      Assoc(line + "\n", rest, b);
      Assoc(Decoded(c, line), ReadBack(c, rest), ReadBack(c, b));
    }
  }

  lemma {:induction false} ScanConcat(a: string, b: string)
    requires Terminated(a) && Scannable(a) && Scannable(b)
    ensures Scannable(a + b)
    decreases |a|
  {
    hide Scannable, Cut;
    if a == "" {
      assert a + b == b;
    } else {
      var line, rest := FirstLine(a);
      Assoc(line + "\n", rest, b);
      ScanConcat(rest, b);
      ScanJoined(line, rest + b);
    }
  }

  /** A whole line and what follows it. */
  lemma FirstLine(a: string) returns (line: string, rest: string)
    requires a != "" && Terminated(a) && Scannable(a)
    ensures '\n' !in line && |line| < MAX_RECORD_LINE && a == line + "\n" + rest
    ensures Terminated(rest) && Scannable(rest)
  {
    hide Scannable, Cut;
    var n := Cut(a);
    CutAt(a);
    CutInside(a);
    ScanUnfolds(a);
    line, rest := a[..n], a[n + 1..];
    assert a == line + "\n" + rest;
    assert rest != "" ==> Last(rest) == Last(a);
  }

  lemma ScanJoined(line: string, after: string)
    requires '\n' !in line && |line| < MAX_RECORD_LINE && Scannable(after)
    ensures Scannable(line + "\n" + after)
  {
    hide Scannable, Cut;
    var file := line + "\n" + after;
    CutIs(file, |line|);
    ScanUnfolds(file);
    assert file[|line| + 1..] == after;
  }

  lemma ReadLine<T>(c: Codec<T>, x: T)
    requires Readable(c, x)
    ensures ReadBack(c, Line(c, x)) == [x] && Scannable(Line(c, x)) && Terminated(Line(c, x)) && Line(c, x) != ""
  {
    var s := c.encode(x).value;
    CutIs(s + "\n", |s|);
    assert (s + "\n")[..|s|] == s && (s + "\n")[|s| + 1..] == "";
  }

  lemma TerminatedConcat(a: string, b: string)
    requires Terminated(a) && Terminated(b)
    ensures Terminated(a + b)
  {
  }

  /** Reading a file just written gives back exactly what was written. */
  lemma {:induction false} ReadEncoded<T>(c: Codec<T>, xs: seq<T>)
    requires AllReadable(c, xs)
    ensures ReadBack(c, Encoded(c, xs)) == xs && Scannable(Encoded(c, xs)) && Terminated(Encoded(c, xs))
  {
    if xs != [] {
      hide Readable, ReadBack, Scannable, Line;
      ReadLine(c, xs[0]);
      ReadEncoded(c, xs[1..]);
      ReadConcat(c, Line(c, xs[0]), Encoded(c, xs[1..]));
      TerminatedConcat(Line(c, xs[0]), Encoded(c, xs[1..]));
    }
  }

  /** Appending to a file that ends in a newline adds exactly what was appended. */
  lemma AppendReads<T>(c: Codec<T>, file: string, xs: seq<T>)
    requires Terminated(file) && Scannable(file) && AllReadable(c, xs)
    ensures var after := file + Encoded(c, xs);
            ReadBack(c, after) == ReadBack(c, file) + xs && Terminated(after) && Scannable(after)
  {
    ReadEncoded(c, xs);
    ReadConcat(c, file, Encoded(c, xs));
    TerminatedConcat(file, Encoded(c, xs));
  }

  /** A crash in the middle of an append keeps everything before it and a prefix of what it was adding. */
  lemma {:induction false} TornAppend<T>(c: Codec<T>, file: string, xs: seq<T>, n: nat) returns (k: nat)
    requires Terminated(file) && Scannable(file) && AllReadable(c, xs) && n <= |Encoded(c, xs)|
    ensures k <= |xs| && ReadBack(c, file + Encoded(c, xs)[..n]) == ReadBack(c, file) + xs[..k]
    decreases |xs|
  {
    k := TornTail(c, xs, n);
    ReadConcat(c, file, Encoded(c, xs)[..n]);
  }

  lemma {:induction false} TornTail<T>(c: Codec<T>, xs: seq<T>, n: nat) returns (k: nat)
    requires AllReadable(c, xs) && n <= |Encoded(c, xs)|
    ensures k <= |xs| && ReadBack(c, Encoded(c, xs)[..n]) == xs[..k]
    decreases |xs|
  {
    if xs == [] {
      k := 0;
    } else {
      hide ReadBack, Scannable, Readable, Line, Encoded;
      var line, rest := Line(c, xs[0]), Encoded(c, xs[1..]);
      assert xs == [xs[0]] + xs[1..];
      EncodedCons(c, xs[0], xs[1..]);
      if n < |line| {
        assert (line + rest)[..n] == line[..n];
        k := TornLine(c, xs[0], n);
        assert [xs[0]][..k] == xs[..k];
      } else {
        var j := TornTail(c, xs[1..], n - |line|);
        k := j + 1;
        TornStep(c, xs, rest[..n - |line|], j);
        assert (line + rest)[..n] == line + rest[..n - |line|];
      }
    }
  }

  lemma TornStep<T>(c: Codec<T>, xs: seq<T>, torn: string, j: nat)
    requires xs != [] && Readable(c, xs[0]) && j <= |xs[1..]| && ReadBack(c, torn) == xs[1..][..j]
    ensures ReadBack(c, Line(c, xs[0]) + torn) == xs[..j + 1]
  {
    hide ReadBack, Scannable, Readable, Line;
    ReadLine(c, xs[0]);
    ReadConcat(c, Line(c, xs[0]), torn);
    assert [xs[0]] + xs[1..][..j] == xs[..j + 1];
  }

  lemma TornLine<T>(c: Codec<T>, x: T, n: nat) returns (k: nat)
    requires Readable(c, x) && n < |Line(c, x)|
    ensures k <= 1 && ReadBack(c, Line(c, x)[..n]) == [x][..k]
  {
    var s := c.encode(x).value;
    var torn := Line(c, x)[..n];
    assert torn == s[..n];
    k := if n == |s| && n > 0 then 1 else 0;
    if n > 0 {
      CutIs(torn, n);
      ReadLast(c, torn);
      assert s[..|s|] == s;
    }
  }

  /**
   * A file whose last line was torn: the next record is written straight after
   * it, and what comes back for that line is what the two halves decode to.
   */
  lemma MergedAppend<T>(c: Codec<T>, head: string, torn: string, x: T, rest: seq<T>)
    requires Terminated(head) && Scannable(head) && torn != "" && '\n' !in torn
    requires Readable(c, x) && AllReadable(c, rest)
    ensures var s := c.encode(x).value;
            ReadBack(c, head + torn + Encoded(c, [x] + rest)) ==
            ReadBack(c, head) + if |torn + s| < MAX_RECORD_LINE then Decoded(c, torn + s) + rest else []
  {
    hide ReadBack, Scannable, Encoded;
    var s := c.encode(x).value;
    var joined, after := torn + s, Encoded(c, rest);
    EncodedCons(c, x, rest);
    assert head + torn + Encoded(c, [x] + rest) == head + (joined + "\n" + after);
    ReadConcat(c, head, joined + "\n" + after);
    ReadJoined(c, joined, after);
    ReadEncoded(c, rest);
  }

  lemma EncodedCons<T>(c: Codec<T>, x: T, rest: seq<T>)
    ensures Encoded(c, [x] + rest) == Line(c, x) + Encoded(c, rest)
  {
    assert ([x] + rest)[0] == x && ([x] + rest)[1..] == rest;
  }

  lemma ReadJoined<T>(c: Codec<T>, line: string, after: string)
    requires '\n' !in line
    ensures ReadBack(c, line + "\n" + after) ==
            if |line| < MAX_RECORD_LINE then Decoded(c, line) + ReadBack(c, after) else []
  {
    hide ReadBack;
    var file := line + "\n" + after;
    CutIs(file, |line|);
    ReadStep(c, file);
    assert file[..|line|] == line && file[|line| + 1..] == after;
  }

  /** So where the halves do not make a record, the first new one is lost to the file. */
  lemma TornTailLosesNext<T>(c: Codec<T>, head: string, torn: string, x: T)
    requires Terminated(head) && Scannable(head) && torn != "" && '\n' !in torn && Readable(c, x)
    ensures var after := head + torn + Encoded(c, [x]);
            ReadBack(c, after) == ReadBack(c, head) + [x] <==>
            |torn + c.encode(x).value| < MAX_RECORD_LINE && c.decode(torn + c.encode(x).value) == Some(x)
  {
    hide ReadBack;
    MergedAppend(c, head, torn, x, []);
    assert [x] + [] == [x];
    var s := c.encode(x).value;
    var got := if |torn + s| < MAX_RECORD_LINE then Decoded(c, torn + s) + [] else [];
    assert (ReadBack(c, head) + got)[|ReadBack(c, head)|..] == got;
    assert (ReadBack(c, head) + [x])[|ReadBack(c, head)|..] == [x];
  }

  /** One record of a mebibyte or more hides itself and every record after it. */
  lemma OversizeHidesTheRest<T>(c: Codec<T>, before: seq<T>, x: T, rest: seq<T>)
    requires AllReadable(c, before)
    requires c.encode(x).Some? && '\n' !in c.encode(x).value && |c.encode(x).value| >= MAX_RECORD_LINE
    ensures ReadBack(c, Encoded(c, before) + Encoded(c, [x] + rest)) == before
  {
    var s := c.encode(x).value;
    ReadEncoded(c, before);
    ReadConcat(c, Encoded(c, before), Encoded(c, [x] + rest));
    assert ([x] + rest)[0] == x && ([x] + rest)[1..] == rest;
    CutIs(Encoded(c, [x] + rest), |s|);
  }

  lemma {:induction false} EncodedAppend<T>(c: Codec<T>, xs: seq<T>, x: T)
    ensures Encoded(c, xs + [x]) == Encoded(c, xs) + Line(c, x)
  {
    if xs == [] {
      assert [x][1..] == [] && xs + [x] == [x];
    } else {
      EncodedAppend(c, xs[1..], x);
      assert (xs + [x])[0] == xs[0] && (xs + [x])[1..] == xs[1..] + [x];
      Assoc(Line(c, xs[0]), Encoded(c, xs[1..]), Line(c, x));
    }
  }

  lemma LastLine<T>(c: Codec<T>, items: seq<T>)
    requires items != []
    ensures Encoded(c, items[|items| - 1..]) == Line(c, Last(items))
  {
    assert items[|items| - 1..] == [Last(items)] && [Last(items)][1..] == [];
  }

  lemma NoLines<T>(c: Codec<T>)
    ensures Encoded(c, []) == ""
  {
  }

  lemma ScanStops<T>(c: Codec<T>, file: string)
    requires Cut(file) >= MAX_RECORD_LINE
    ensures ReadBack(c, file) == []
  {
  }

  lemma NothingLeft<T>(c: Codec<T>)
    ensures ReadBack(c, "") == []
  {
  }

  // ---------------------------------------------------------------------------
  // The object
  // ---------------------------------------------------------------------------

  /** How far a rewrite got. */
  datatype Rewrite = OpenFails | WriteFails | CloseFails | RenameFails | Replaced(reopens: bool)

  class DiskQueue<T(==,!new)> {
    const codec: Codec<T>
    const maxBytes: nat

    /** What is at the path, and every content that has been there. */
    var file: string
    ghost var past: seq<string>

    var size: nat
    var open: bool
    var broken: bool

    constructor (codec: Codec<T>, maxBytes: nat, file: string)
      ensures this.codec == codec && this.maxBytes == maxBytes && this.file == file && past == [file] && !broken && !open
    {
      this.codec, this.maxBytes, this.file := codec, maxBytes, file;
      past := [file];
      size, open, broken := 0, false, false;
    }

    ghost predicate Valid()
      reads this
    {
      && past != [] && Last(past) == file && (open ==> !broken && size == |file|)
    }

    /** The file reads back whole and takes appends. */
    ghost predicate Sound()
      reads this
    {
      Terminated(file) && Scannable(file)
    }

    method Fail()
      modifies this`open, this`broken
      ensures broken && !open
    {
      open := false;
      broken := true;
    }

    method OpenAppend(ok: bool)
      requires Valid()
      modifies this`open, this`broken, this`size
      ensures Valid() && file == old(file) && (broken <==> old(broken) || (!old(open) && !ok)) && (!broken ==> open)
    {
      if broken || open { return; }
      if !ok {
        Fail();
        return;
      }
      open := true;
      size := |file|;
    }

    /** The newest `max` of what a scan yields. Nothing is written. */
    method Load(max: nat, readable: bool, opens: bool) returns (out: seq<T>)
      requires Valid() && !broken && !open
      modifies this`open, this`broken, this`size
      ensures Valid() && (!broken ==> open)
      ensures out == if !readable then [] else if max > 0 then Newest(ReadBack(codec, file), max) else ReadBack(codec, file)
      ensures broken <==> !readable || !opens
    {
      hide ReadBack;
      out := [];
      if !readable {
        Fail();
        OpenAppend(opens);
        return;
      }
      out := Scan();
      if max > 0 && |out| > max {
        out := out[|out| - max..];
      }
      OpenAppend(opens);
    }

    /** The scanner's loop. */
    method Scan() returns (out: seq<T>)
      ensures out == ReadBack(codec, file)
    {
      hide ReadBack, Decoded, Cut;
      out := [];
      var at := 0;
      assert file[0..] == file;
      while at < |file| && Cut(file[at..]) < MAX_RECORD_LINE
        invariant 0 <= at <= |file|
        invariant out + ReadBack(codec, file[at..]) == ReadBack(codec, file)
        decreases |file| - at
      {
        var rest := file[at..];
        var n := Cut(rest);
        ghost var before := out;
        out := out + Decoded(codec, rest[..n]);
        if n == |rest| {
          ReadLast(codec, rest);
          assert rest[..n] == rest && file[|file|..] == "";
          NothingLeft(codec);
          at := |file|;
        } else {
          ReadStep(codec, rest);
          assert rest[n + 1..] == file[at + n + 1..];
          Assoc(before, Decoded(codec, rest[..n]), ReadBack(codec, file[at + n + 1..]));
          at := at + n + 1;
        }
      }
      if at < |file| { ScanStops(codec, file[at..]); } else { NothingLeft(codec); }
    }

    /** One write for everything that joined in this pass. `written` is how much of it landed where it failed. */
    method Append(items: seq<T>, opens: bool, ok: bool, written: nat)
      requires Valid()
      modifies this
      ensures Valid() && (old(open) && !broken ==> open)
      ensures broken <==> old(broken) || (items != [] && !old(open) && !opens) || (Encoded(codec, items) != "" && !ok)
      ensures !broken ==> file == old(file) + Encoded(codec, items)
      ensures exists n | 0 <= n <= |Encoded(codec, items)| :: file == old(file) + Encoded(codec, items)[..n]
      ensures past == old(past) || past == old(past) + [file]
    {
      hide Encoded, Line;
      assert file == old(file) + Encoded(codec, items)[..0];
      if broken || |items| == 0 {
        NoLines(codec);
        return;
      }
      if !open {
        OpenAppend(opens);
        if !open { return; }
      }
      var buf := Buffer(items);
      assert buf[..|buf|] == buf;
      if |buf| == 0 { return; }
      var n := if ok then |buf| else Min(written, |buf|);
      file := file + buf[..n];
      past := past + [file];
      size := size + n;
      if !ok { Fail(); }
    }

    /** The lines of a run of items, one after another. */
    method Buffer(items: seq<T>) returns (buf: string)
      ensures buf == Encoded(codec, items)
    {
      buf := "";
      for i := 0 to |items|
        invariant buf == Encoded(codec, items[..i])
      {
        assert items[..i + 1] == items[..i] + [items[i]];
        EncodedAppend(codec, items[..i], items[i]);
        buf := buf + Line(codec, items[i]);
      }
      assert items[..|items|] == items;
    }

    predicate OverCap()
      reads this
    {
      !broken && size > maxBytes
    }

    /**
     * Replaces the content by the pending records, less as many of the oldest as
     * the bound on its size takes. Up to the rename the path holds the old content, after it
     * the new: there is no third.
     */
    method Sync(pending: seq<T>, how: Rewrite) returns (kept: seq<T>, dropped: nat)
      requires Valid()
      modifies this
      ensures Valid() && (old(open) && !broken ==> open)
      ensures dropped <= |pending| && kept == pending[dropped..]
      ensures old(broken) || !how.Replaced? ==> dropped == 0 && file == old(file) && past == old(past) && broken
      ensures !old(broken) && how.Replaced? ==>
                && file == Encoded(codec, kept) && past == old(past) + [file]
                && |file| <= maxBytes && (broken <==> !how.reopens) && (!broken ==> open)
                && forall d | 0 <= d < dropped :: |Encoded(codec, pending[d..])| > maxBytes
      ensures dropped > 0 <==> !old(broken) && how.Replaced? && |Encoded(codec, pending)| > maxBytes
      ensures pending != [] && |Line(codec, Last(pending))| <= maxBytes ==> kept != []
    {
      hide Encoded, Line;
      dropped := 0;
      kept := pending;
      assert pending[0..] == pending;
      if broken { return; }
      var cut, total := Fitting(pending);
      if how.OpenFails? { Fail(); return; }
      var tmp := WriteAll(pending, cut);
      if how.WriteFails? || how.CloseFails? { Fail(); return; }
      open := false;
      if how.RenameFails? { Fail(); return; }
      file := tmp;
      past := past + [file];
      size := total;
      OpenAppend(how.reopens);
      kept, dropped := pending[cut..], cut;
    }

    /** How many of the oldest have to go for the rest to fit, and what the rest takes. */
    method Fitting(pending: seq<T>) returns (cut: nat, total: nat)
      ensures cut <= |pending| && total == |Encoded(codec, pending[cut..])| <= maxBytes
      ensures forall d | 0 <= d < cut :: |Encoded(codec, pending[d..])| > maxBytes
      ensures cut > 0 <==> |Encoded(codec, pending)| > maxBytes
      ensures pending != [] && |Line(codec, Last(pending))| <= maxBytes ==> cut < |pending|
    {
      hide Encoded, Line;
      var buf := Buffer(pending);
      total := |buf|;
      assert pending[0..] == pending;
      cut := 0;
      while total > maxBytes && cut < |pending|
        invariant 0 <= cut <= |pending| && total == |Encoded(codec, pending[cut..])|
        invariant forall d | 0 <= d < cut :: |Encoded(codec, pending[d..])| > maxBytes
      {
        assert pending[cut..] == [pending[cut]] + pending[cut + 1..];
        EncodedCons(codec, pending[cut], pending[cut + 1..]);
        total := total - |Line(codec, pending[cut])|;
        cut := cut + 1;
      }
      assert cut == |pending| ==> pending[cut..] == [];
      NoLines(codec);
      if pending != [] { LastLine(codec, pending); }
    }

    /** The temporary file, line by line. */
    method WriteAll(pending: seq<T>, cut: nat) returns (tmp: string)
      requires cut <= |pending|
      ensures tmp == Encoded(codec, pending[cut..])
    {
      hide Line;
      tmp := "";
      for i := cut to |pending|
        invariant tmp == Encoded(codec, pending[cut..i])
      {
        assert pending[cut..i + 1] == pending[cut..i] + [pending[i]];
        EncodedAppend(codec, pending[cut..i], pending[i]);
        tmp := tmp + Line(codec, pending[i]);
      }
      assert pending[cut..|pending|] == pending[cut..];
    }
  }
}
