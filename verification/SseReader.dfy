/** The session router's incremental reader of a streamed completion. */
module SseReader {
  import opened Options

  type Byte = b: int | 0 <= b < 256

  type Bytes = seq<Byte>

  /** What the router keeps of one decoded chunk. */
  datatype Event = Event(id: Option<nat>, created: Option<nat>, model: Option<nat>, usage: Option<nat>, rest: nat)

  /** UTF-8 and JSON decoding and the choice of metadata: None for what fails to decode or has no metadata. */
  type Decoder = Bytes -> Option<Event>

  const NEWLINE: Byte := 10

  // "data:" and "[DONE]"
  const DATA: Bytes := [100, 97, 116, 97, 58]
  const DONE: Bytes := [91, 68, 79, 78, 69, 93]

  // ---------------------------------------------------------------- one line

  predicate Blank(b: Byte) {
    b == 32 || 9 <= b <= 13
  }

  function StripLeft(s: Bytes): (r: Bytes)
    ensures |r| <= |s|
  {
    if s != [] && Blank(s[0]) then StripLeft(s[1..]) else s
  }

  function StripRight(s: Bytes): (r: Bytes)
    ensures |r| <= |s|
  {
    if s != [] && Blank(s[|s| - 1]) then StripRight(s[..|s| - 1]) else s
  }

  function Strip(s: Bytes): Bytes {
    StripRight(StripLeft(s))
  }

  /** The event of one line, if it is a data line whose payload decodes. */
  function LineEvents(line: Bytes, decode: Decoder): seq<Event> {
    var l := Strip(line);
    if !(DATA <= l) then []
    else
      var payload := Strip(l[|DATA|..]);
      if payload == [] || payload == DONE then []
      else
        match decode(payload)
        case None => []
        case Some(e) => [e]
  }

  predicate AllBlank(s: Bytes) {
    forall b | b in s :: b == 32 || 9 <= b <= 13
  }

  predicate Trimmed(s: Bytes) {
    s != [] ==> !(s[0] == 32 || 9 <= s[0] <= 13) && !(s[|s| - 1] == 32 || 9 <= s[|s| - 1] <= 13)
  }

  /** The line is "data:", blanks and this payload, among blanks. */
  ghost predicate IsDataLine(line: Bytes, payload: Bytes) {
    Trimmed(payload) && exists a, b, c :: AllBlank(a) && AllBlank(b) && AllBlank(c) && line == a + ([100, 97, 116, 97, 58] + (b + payload)) + c
  }

  /** It carries a payload other than "[DONE]" that decodes to this event. */
  ghost predicate Carries(line: Bytes, decode: Decoder, e: Event) {
    exists payload :: IsDataLine(line, payload) && payload != [] && payload != [91, 68, 79, 78, 69, 93] && decode(payload) == Some(e)
  }

  lemma {:induction false} StripLeftDrops(a: Bytes, core: Bytes)
    requires AllBlank(a) && (core == [] || !Blank(core[0]))
    ensures StripLeft(a + core) == core
  {
    if a == [] {
      assert a + core == core;
    } else {
      assert (a + core)[0] == a[0] && a[0] in a;
      assert forall b | b in a[1..] :: b in a;
      StripLeftDrops(a[1..], core);
      assert (a + core)[1..] == a[1..] + core;
    }
  }

  lemma {:induction false} StripRightDrops(core: Bytes, c: Bytes)
    requires AllBlank(c) && (core == [] || !Blank(core[|core| - 1]))
    ensures StripRight(core + c) == core
  {
    if c == [] {
      assert core + c == core;
    } else {
      var n := |c| - 1;
      assert (core + c)[|core| + n] == c[n] && c[n] in c;
      assert forall b | b in c[..n] :: b in c;
      StripRightDrops(core, c[..n]);
      assert (core + c)[..|core| + n] == core + c[..n];
    }
  }

  lemma {:induction false} StripLeftLeaves(s: Bytes) returns (a: Bytes)
    ensures AllBlank(a) && s == a + StripLeft(s) && (StripLeft(s) == [] || !Blank(StripLeft(s)[0]))
  {
    a := [];
    if s != [] && Blank(s[0]) {
      a := StripLeftLeaves(s[1..]);
      a := [s[0]] + a;
    }
  }

  lemma {:induction false} StripRightLeaves(s: Bytes) returns (c: Bytes)
    ensures AllBlank(c) && s == StripRight(s) + c && (StripRight(s) == [] || !Blank(StripRight(s)[|StripRight(s)| - 1]))
    ensures StripRight(s) != [] ==> StripRight(s)[0] == s[0]
  {
    c := [];
    if s != [] && Blank(s[|s| - 1]) {
      c := StripRightLeaves(s[..|s| - 1]);
      c := c + [s[|s| - 1]];
    }
  }

  lemma StripLeaves(s: Bytes) returns (a: Bytes, c: Bytes)
    ensures AllBlank(a) && AllBlank(c) && Trimmed(Strip(s)) && s == a + Strip(s) + c
  {
    a := StripLeftLeaves(s);
    c := StripRightLeaves(StripLeft(s));
    assert a + (Strip(s) + c) == a + Strip(s) + c;
  }

  /** Blanks around a trimmed core are what stripping takes off. */
  lemma StripDrops(a: Bytes, core: Bytes, c: Bytes)
    requires AllBlank(a) && AllBlank(c) && Trimmed(core) && core != []
    ensures Strip(a + core + c) == core
  {
    assert a + core + c == a + (core + c);
    StripLeftDrops(a, core + c);
    StripRightDrops(core, c);
  }

  lemma CarriedPayload(line: Bytes, payload: Bytes)
    requires IsDataLine(line, payload) && payload != []
    ensures DATA <= Strip(line) && Strip(Strip(line)[|DATA|..]) == payload
  {
    var a, b, c :| AllBlank(a) && AllBlank(b) && AllBlank(c) && line == a + ([100, 97, 116, 97, 58] + (b + payload)) + c;
    var core := DATA + (b + payload);
    assert core[0] == 100 && core[|core| - 1] == payload[|payload| - 1];
    StripDrops(a, core, c);
    assert core[|DATA|..] == b + payload;
    assert b + payload + [] == b + payload;
    StripDrops(b, payload, []);
  }

  lemma PayloadCarried(line: Bytes)
    requires DATA <= Strip(line)
    ensures IsDataLine(line, Strip(Strip(line)[|DATA|..]))
  {
    var a, c := StripLeaves(line);
    var l := Strip(line);
    var b, d := StripLeaves(l[|DATA|..]);
    var payload := Strip(l[|DATA|..]);
    assert AllBlank(d + c);
    assert l == DATA + l[|DATA|..];
    Regrouped(a, DATA, b + payload, d, c);
  }

  lemma Regrouped<T>(a: seq<T>, x: seq<T>, y: seq<T>, d: seq<T>, c: seq<T>)
    ensures a + (x + (y + d)) + c == a + (x + y) + (d + c)
  {
    assert x + (y + d) == (x + y) + d;
    assert a + ((x + y) + d) == (a + (x + y)) + d;
  }

  /** A line yields an event exactly when it carries it, and never more than one. */
  lemma LineCarries(line: Bytes, decode: Decoder)
    ensures |LineEvents(line, decode)| <= 1 && forall e :: LineEvents(line, decode) == [e] <==> Carries(line, decode, e)
  {
    forall e ensures LineEvents(line, decode) == [e] <==> Carries(line, decode, e) {
      if LineEvents(line, decode) == [e] { PayloadCarried(line); }
      if Carries(line, decode, e) {
        var payload :| IsDataLine(line, payload) && payload != [] && payload != [91, 68, 79, 78, 69, 93] && decode(payload) == Some(e);
        CarriedPayload(line, payload);
      }
    }
  }

  // ---------------------------------------------------------------- the whole stream

  /** One more byte ends the last line or extends it. */
  function Extended(lines: seq<Bytes>, b: Byte): (r: seq<Bytes>)
    requires lines != []
    ensures r != []
  {
    if b == NEWLINE then lines + [[]] else lines[..|lines| - 1] + [lines[|lines| - 1] + [b]]
  }

  /** The pieces between newlines, the last one unterminated (and empty if the stream ends in a newline). */
  function Lines(s: Bytes): (r: seq<Bytes>)
    ensures |r| > 0
  {
    if s == [] then [[]]
    else Extended(Lines(s[..|s| - 1]), s[|s| - 1])
  }

  function EventsOf(lines: seq<Bytes>, decode: Decoder): seq<Event> {
    if lines == [] then [] else EventsOf(lines[..|lines| - 1], decode) + LineEvents(lines[|lines| - 1], decode)
  }

  /** The reference reading: split the complete byte stream into lines and take each line's event. */
  function StreamEvents(s: Bytes, decode: Decoder): seq<Event> {
    EventsOf(Lines(s), decode)
  }

  function Joined(chunks: seq<Bytes>): Bytes {
    if chunks == [] then [] else Joined(chunks[..|chunks| - 1]) + chunks[|chunks| - 1]
  }

  lemma {:induction false} NoNewlineOneLine(s: Bytes)
    requires NEWLINE !in s
    ensures Lines(s) == [s]
  {
    if s != [] {
      var front, b := s[..|s| - 1], s[|s| - 1];
      assert s == front + [b];
      NoNewlineOneLine(front);
      LinesStep(front, b);
      ExtendOne(front, b);
    }
  }

  lemma ExtendOne(line: Bytes, b: Byte)
    requires b != NEWLINE
    ensures Extended([line], b) == [line + [b]]
  {
  }

  lemma LinesStep(s: Bytes, b: Byte)
    ensures Lines(s + [b]) == Extended(Lines(s), b)
  {
    assert (s + [b])[..|s|] == s;
  }

  lemma ExtendedConcat(done: seq<Bytes>, lines: seq<Bytes>, b: Byte)
    requires lines != []
    ensures Extended(done + lines, b) == done + Extended(lines, b)
  {
  }

  lemma Associate(s: Bytes, front: Bytes, b: Byte)
    ensures s + (front + [b]) == s + front + [b]
  {
  }

  /** What follows only extends the last line. */
  lemma {:induction false} LinesGrow(done: seq<Bytes>, s: Bytes, last: Bytes, data: Bytes)
    requires Lines(s) == done + Lines(last)
    ensures Lines(s + data) == done + Lines(last + data)
  {
    if data == [] {
      assert s + data == s && last + data == last;
    } else {
      var front, b := data[..|data| - 1], data[|data| - 1];
      LinesGrow(done, s, last, front);
      assert data == front + [b];
      Associate(s, front, b);
      Associate(last, front, b);
      LinesStep(s + front, b);
      LinesStep(last + front, b);
      ExtendedConcat(done, Lines(last + front), b);
    }
  }

  /** Cutting at the first newline takes off the first line. */
  lemma FirstLine(line: Bytes, rest: Bytes)
    requires NEWLINE !in line
    ensures Lines(line + [NEWLINE] + rest) == [line] + Lines(rest)
  {
    NoNewlineOneLine(line);
    LinesStep(line, NEWLINE);
    assert [line] + [[]] == [line] + Lines([]);
    LinesGrow([line], line + [NEWLINE], [], rest);
    assert [] + rest == rest;
  }

  function Rejoined(lines: seq<Bytes>): Bytes
    requires lines != []
  {
    if |lines| == 1 then lines[0] else Rejoined(lines[..|lines| - 1]) + [NEWLINE] + lines[|lines| - 1]
  }

  lemma RejoinedExtended(lines: seq<Bytes>, b: Byte)
    requires lines != []
    ensures Rejoined(Extended(lines, b)) == Rejoined(lines) + [b]
  {
    var r := Extended(lines, b);
    if b == NEWLINE {
      assert r[..|r| - 1] == lines;
    } else if |lines| > 1 {
      assert r[..|r| - 1] == lines[..|lines| - 1];
    }
  }

  predicate Unbroken(line: Bytes) {
    NEWLINE !in line
  }

  lemma ExtendedUnbroken(lines: seq<Bytes>, b: Byte)
    requires lines != [] && forall i | 0 <= i < |lines| :: Unbroken(lines[i])
    ensures forall i | 0 <= i < |Extended(lines, b)| :: Unbroken(Extended(lines, b)[i])
  {
    assert Unbroken([]);
    if b != NEWLINE { assert Unbroken(lines[|lines| - 1] + [b]); }
  }

  /** The lines are the stream cut at its newlines: none holds one, and put together again they are the stream. */
  lemma {:induction false} LinesAreTheSplit(s: Bytes)
    ensures Rejoined(Lines(s)) == s && forall i | 0 <= i < |Lines(s)| :: Unbroken(Lines(s)[i])
  {
    if s == [] {
      assert Unbroken([]);
    } else {
      var front, b := s[..|s| - 1], s[|s| - 1];
      LinesAreTheSplit(front);
      RejoinedExtended(Lines(front), b);
      ExtendedUnbroken(Lines(front), b);
      assert s == front + [b];
    }
  }

  // ---------------------------------------------------------------- blank lines

  lemma BlankLineIsSilent(line: Bytes, decode: Decoder)
    requires Strip(line) == []
    ensures LineEvents(line, decode) == []
  {
  }

  // ---------------------------------------------------------------- the incremental reader

  /** Bytes read so far were cut into finished lines, whose events are collected, and a pending one. */
  predicate Reads(events: seq<Event>, pending: Bytes, total: Bytes, decode: Decoder) {
    var lines := Lines(total);
    lines[|lines| - 1] == pending && NEWLINE !in pending && events == EventsOf(lines[..|lines| - 1], decode)
  }

  /** Midway through the buffer: finished lines are accounted for, the rest is still pending. */
  predicate Cutting(all: Bytes, done: seq<Bytes>, pending: Bytes, events: seq<Event>, decode: Decoder) {
    Lines(all) == done + Lines(pending) && events == EventsOf(done, decode)
  }

  lemma CutStart(total: Bytes, data: Bytes, pending: Bytes, events: seq<Event>, decode: Decoder)
    requires Reads(events, pending, total, decode)
    ensures Cutting(total + data, Lines(total)[..|Lines(total)| - 1], pending + data, events, decode)
  {
    var done := Lines(total)[..|Lines(total)| - 1];
    NoNewlineOneLine(pending);
    assert Lines(total) == done + Lines(pending);
    LinesGrow(done, total, pending, data);
  }

  lemma OneBetween<T>(x: seq<T>, y: T, z: seq<T>)
    ensures x + ([y] + z) == x + [y] + z
  {
  }

  lemma CutOne(all: Bytes, done: seq<Bytes>, line: Bytes, rest: Bytes, events: seq<Event>, decode: Decoder)
    requires Cutting(all, done, line + [NEWLINE] + rest, events, decode) && NEWLINE !in line
    ensures Cutting(all, done + [line], rest, events + LineEvents(line, decode), decode)
  {
    FirstLine(line, rest);
    OneBetween(done, line, Lines(rest));
    EventsStep(done, line, decode);
  }

  lemma CutEnd(all: Bytes, done: seq<Bytes>, pending: Bytes, events: seq<Event>, decode: Decoder)
    requires Cutting(all, done, pending, events, decode) && NEWLINE !in pending
    ensures Reads(events, pending, all, decode)
  {
    NoNewlineOneLine(pending);
    assert (done + [pending])[..|done|] == done;
  }

  class Reader {
    const decode: Decoder
    var pending: Bytes
    var events: seq<Event>

    constructor (decode: Decoder)
      ensures this.decode == decode && Reads(events, pending, [], decode)
    {
      this.decode, pending, events := decode, [], [];
    }

    /** Takes the first line off the buffer. */
    method ConsumeLine(ghost all: Bytes, ghost done: seq<Bytes>) returns (ghost done': seq<Bytes>)
      requires Cutting(all, done, pending, events, decode) && NEWLINE in pending
      modifies this
      ensures Cutting(all, done', pending, events, decode) && |pending| < |old(pending)|
    {
      var i := IndexOfNewline(pending);
      var line, rest := pending[..i], pending[i + 1..];
      assert pending == line + [NEWLINE] + rest;
      CutOne(all, done, line, rest, events, decode);
      var found := ReadLine(line);
      pending, events, done' := rest, events + found, done + [line];
    }

    /** Takes every finished line off the buffer. */
    method Consume(data: Bytes, ghost total: Bytes)
      requires Reads(events, pending, total, decode)
      modifies this
      ensures Reads(events, pending, total + data, decode)
    {
      CutStart(total, data, pending, events, decode);
      ghost var done := Lines(total)[..|Lines(total)| - 1];
      pending := pending + data;
      while NEWLINE in pending
        invariant Cutting(total + data, done, pending, events, decode)
        decreases |pending|
      {
        done := ConsumeLine(total + data, done);
      }
      CutEnd(total + data, done, pending, events, decode);
    }

    method ReadLine(line: Bytes) returns (found: seq<Event>)
      ensures found == LineEvents(line, decode)
      ensures |found| <= 1 && forall e :: found == [e] <==> Carries(line, decode, e)
    {
      LineCarries(line, decode);
      found := [];
      var l := Strip(line);
      if !(DATA <= l) { return; }
      var payload := Strip(l[|DATA|..]);
      if payload == [] || payload == DONE { return; }
      match decode(payload) {
        case None =>
        case Some(e) => found := [e];
      }
    }

    /** Reads every chunk as it is forwarded, then the unterminated last line. */
    method ReadAll(chunks: seq<Bytes>) returns (forwarded: Bytes)
      requires Reads(events, pending, [], decode)
      modifies this
      ensures events == StreamEvents(Joined(chunks), decode)
      ensures forwarded == Joined(chunks)
    {
      forwarded := [];
      assert chunks[..0] == [];
      var i := 0;
      while i < |chunks|
        invariant i <= |chunks| && forwarded == Joined(chunks[..i])
        invariant Reads(events, pending, forwarded, decode)
      {
        Consume(chunks[i], forwarded);
        assert chunks[..i + 1][..i] == chunks[..i];
        forwarded := forwarded + chunks[i];
        i := i + 1;
      }
      assert chunks[..i] == chunks;
      ghost var lines := Lines(forwarded);
      assert lines == lines[..|lines| - 1] + [pending];
      EventsStep(lines[..|lines| - 1], pending, decode);
      if Strip(pending) != [] {
        LinesStep(forwarded, NEWLINE);
        Consume([NEWLINE], forwarded);
        assert Lines(forwarded + [NEWLINE])[..|lines|] == lines;
      } else {
        BlankLineIsSilent(pending, decode);
      }
    }
  }

  lemma EventsStep(done: seq<Bytes>, line: Bytes, decode: Decoder)
    ensures EventsOf(done + [line], decode) == EventsOf(done, decode) + LineEvents(line, decode)
  {
    assert (done + [line])[..|done|] == done;
  }

  method IndexOfNewline(s: Bytes) returns (i: nat)
    requires NEWLINE in s
    ensures i < |s| && s[i] == NEWLINE && NEWLINE !in s[..i]
  {
    i := 0;
    while s[i] != NEWLINE
      invariant i < |s| && NEWLINE !in s[..i] && NEWLINE in s[i..]
      decreases |s| - i
    {
      assert s[i..] == [s[i]] + s[i + 1..];
      assert s[..i + 1] == s[..i] + [s[i]];
      i := i + 1;
    }
  }

  // ---------------------------------------------------------------- the recorded response

  datatype Response = Response(
    id: Option<nat>, created: Option<nat>, model: Option<nat>, usage: Option<nat>,
    chunks: nat, usageEvents: seq<(Option<nat>, Option<nat>, nat)>)

  /** The first value an event has for a field, the way a default is set once. */
  function First(events: seq<Event>, field: Event -> Option<nat>): Option<nat> {
    if events == [] then None
    else
      var before := First(events[..|events| - 1], field);
      if before.Some? then before else field(events[|events| - 1])
  }

  function Latest(events: seq<Event>, field: Event -> Option<nat>): Option<nat> {
    if events == [] then None
    else if field(events[|events| - 1]).Some? then field(events[|events| - 1])
    else Latest(events[..|events| - 1], field)
  }

  lemma {:induction false} FirstIsEarliest(events: seq<Event>, field: Event -> Option<nat>, i: nat)
    requires i < |events| && field(events[i]).Some? && forall j | 0 <= j < i :: field(events[j]).None?
    ensures First(events, field) == field(events[i])
  {
    var front := events[..|events| - 1];
    if i < |front| {
      FirstIsEarliest(front, field, i);
    } else {
      FirstIsAbsent(front, field);
    }
  }

  lemma {:induction false} FirstIsAbsent(events: seq<Event>, field: Event -> Option<nat>)
    requires forall e | e in events :: field(e).None?
    ensures First(events, field).None?
  {
    if events != [] { FirstIsAbsent(events[..|events| - 1], field); }
  }

  lemma {:induction false} LatestIsLast(events: seq<Event>, field: Event -> Option<nat>, i: nat)
    requires i < |events| && field(events[i]).Some? && forall j | i < j < |events| :: field(events[j]).None?
    ensures Latest(events, field) == field(events[i])
  {
    if i < |events| - 1 { LatestIsLast(events[..|events| - 1], field, i); }
  }

  function UsageEvents(events: seq<Event>): seq<(Option<nat>, Option<nat>, nat)> {
    if events == [] then []
    else
      var e := events[|events| - 1];
      UsageEvents(events[..|events| - 1]) + if e.usage.Some? then [(e.id, e.model, e.usage.value)] else []
  }

  function ResponseOf(events: seq<Event>): Response {
    Response(First(events, (e: Event) => e.id), First(events, (e: Event) => e.created), First(events, (e: Event) => e.model),
             Latest(events, (e: Event) => e.usage), |events|, UsageEvents(events))
  }

  /**
   * The response's id, time and model are each those of the first event that has one, its usage the last event's that has
   * one, and it lists the usage of every event that has one with that event's id and model.
   */
  ghost predicate Records(r: Response, events: seq<Event>) {
    && r.chunks == |events|
    && (forall i | 0 <= i < |events| && events[i].id.Some? && (forall j | 0 <= j < i :: events[j].id.None?) :: r.id == events[i].id)
    && ((forall e | e in events :: e.id.None?) ==> r.id.None?)
    && (forall i | 0 <= i < |events| && events[i].created.Some? && (forall j | 0 <= j < i :: events[j].created.None?) :: r.created == events[i].created)
    && ((forall e | e in events :: e.created.None?) ==> r.created.None?)
    && (forall i | 0 <= i < |events| && events[i].model.Some? && (forall j | 0 <= j < i :: events[j].model.None?) :: r.model == events[i].model)
    && ((forall e | e in events :: e.model.None?) ==> r.model.None?)
    && (forall i | 0 <= i < |events| && events[i].usage.Some? && (forall j | i < j < |events| :: events[j].usage.None?) :: r.usage == events[i].usage)
    && ((forall e | e in events :: e.usage.None?) ==> r.usage.None?)
    && r.usageEvents == UsageEvents(events)
  }

  lemma {:induction false} LatestIsAbsent(events: seq<Event>, field: Event -> Option<nat>)
    requires forall e | e in events :: field(e).None?
    ensures Latest(events, field).None?
  {
    if events != [] { LatestIsAbsent(events[..|events| - 1], field); }
  }

  lemma FirstRecorded(events: seq<Event>, field: Event -> Option<nat>)
    ensures forall i | 0 <= i < |events| && field(events[i]).Some? && (forall j | 0 <= j < i :: field(events[j]).None?) ::
              First(events, field) == field(events[i])
    ensures (forall e | e in events :: field(e).None?) ==> First(events, field).None?
  {
    forall i | 0 <= i < |events| && field(events[i]).Some? && (forall j | 0 <= j < i :: field(events[j]).None?)
      ensures First(events, field) == field(events[i])
    {
      FirstIsEarliest(events, field, i);
    }
    if forall e | e in events :: field(e).None? { FirstIsAbsent(events, field); }
  }

  lemma LatestRecorded(events: seq<Event>, field: Event -> Option<nat>)
    ensures forall i | 0 <= i < |events| && field(events[i]).Some? && (forall j | i < j < |events| :: field(events[j]).None?) ::
              Latest(events, field) == field(events[i])
    ensures (forall e | e in events :: field(e).None?) ==> Latest(events, field).None?
  {
    forall i | 0 <= i < |events| && field(events[i]).Some? && (forall j | i < j < |events| :: field(events[j]).None?)
      ensures Latest(events, field) == field(events[i])
    {
      LatestIsLast(events, field, i);
    }
    if forall e | e in events :: field(e).None? { LatestIsAbsent(events, field); }
  }

  lemma ResponseRecords(events: seq<Event>)
    ensures Records(ResponseOf(events), events)
  {
    FirstRecorded(events, (e: Event) => e.id);
    FirstRecorded(events, (e: Event) => e.created);
    FirstRecorded(events, (e: Event) => e.model);
    LatestRecorded(events, (e: Event) => e.usage);
  }

  method BuildResponse(events: seq<Event>) returns (r: Response)
    ensures r == ResponseOf(events)
    ensures Records(r, events)
  {
    var id, created, model, usage: Option<nat> := None, None, None, None;
    var seen := [];
    assert events[..0] == [];
    var i := 0;
    while i < |events|
      invariant i <= |events| && Response(id, created, model, usage, i, seen) == ResponseOf(events[..i])
    {
      var e := events[i];
      assert events[..i + 1][..i] == events[..i];
      if id.None? { id := e.id; }
      if created.None? { created := e.created; }
      if model.None? { model := e.model; }
      if e.usage.Some? {
        usage := e.usage;
        seen := seen + [(e.id, e.model, e.usage.value)];
      }
      i := i + 1;
    }
    assert events[..i] == events;
    r := Response(id, created, model, usage, i, seen);
    ResponseRecords(events);
  }

  /** Forwards a stream in whatever chunks it arrives and records its response, which depends on the bytes alone. */
  method Forward(chunks: seq<Bytes>, decode: Decoder) returns (forwarded: Bytes, r: Response)
    ensures forwarded == Joined(chunks)
    ensures r == ResponseOf(StreamEvents(Joined(chunks), decode))
    ensures Records(r, StreamEvents(Joined(chunks), decode))
  {
    var reader := new Reader(decode);
    forwarded := reader.ReadAll(chunks);
    r := BuildResponse(reader.events);
  }
}
