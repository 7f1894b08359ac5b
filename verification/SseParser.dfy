/**
 The server-sent-events parser (src/llm/sse_parser.cpp), a subset of section 9.2.6 of the
 WHATWG HTML Living Standard: events end at a blank line, a `data:` line carries a
 payload, a `:` line is a comment, and the payload `[DONE]` ends the stream.
 */
module Sse {
  import opened Wrappers

  datatype Callback = Data(payload: string) | Done | Comment(text: string)

  datatype State = State(buffer: string, doneSeen: bool)

  const DATA_PREFIX := "data:"
  const DONE_SENTINEL := "[DONE]"

  function TrimLeadingSpace(s: string): string {
    if s != "" && s[0] == ' ' then s[1..] else s
  }

  /** The first blank line at or after i. */
  function BoundaryFrom(s: string, i: nat): (r: Option<nat>)
    requires i <= |s|
    ensures r.Some? ==> i <= r.value && r.value + 1 < |s| && s[r.value] == '\n' && s[r.value + 1] == '\n'
    ensures forall k: nat | i <= k && k + 1 < |s| && (r.Some? ==> k < r.value) :: !(s[k] == '\n' && s[k + 1] == '\n')
    decreases |s| - i
  {
    if i + 1 >= |s| then None
    else if s[i] == '\n' && s[i + 1] == '\n' then Some(i)
    else BoundaryFrom(s, i + 1)
  }

  function Boundary(s: string): Option<nat> {
    BoundaryFrom(s, 0)
  }

  /** The end of the line that starts at i. */
  function EndOfLine(s: string, i: nat): (r: nat)
    requires i <= |s|
    ensures i <= r <= |s|
    decreases |s| - i
  {
    if i == |s| || s[i] == '\n' then i else EndOfLine(s, i + 1)
  }

  lemma {:induction false} LineHasNoEnd(s: string, i: nat)
    requires i <= |s|
    ensures '\n' !in s[i..EndOfLine(s, i)]
    ensures EndOfLine(s, i) < |s| ==> s[EndOfLine(s, i)] == '\n'
    decreases |s| - i
  {
    if i < |s| && s[i] != '\n' {
      LineHasNoEnd(s, i + 1);
      assert s[i..EndOfLine(s, i)] == [s[i]] + s[i + 1..EndOfLine(s, i)];
    }
  }

  /** What one line of an event calls. */
  function OnLine(line: string): seq<Callback> {
    if line == "" then []
    else if line[0] == ':' then [Comment(line[1..])]
    else if DATA_PREFIX <= line then
      var payload := TrimLeadingSpace(line[|DATA_PREFIX|..]);
      if payload == DONE_SENTINEL then [Done] else [Data(payload)]
    else []
  }

  /** The last callback is the end of the stream. */
  predicate Ends(cs: seq<Callback>) {
    |cs| > 0 && cs[|cs| - 1].Done?
  }

  /** What the lines from position i on call after `made`; nothing after the end of the stream. */
  function OnLines(text: string, i: nat, made: seq<Callback>): seq<Callback>
    decreases |text| - i
  {
    if i >= |text| then made
    else
      var e := EndOfLine(text, i);
      var c := OnLine(text[i..e]);
      if Ends(c) then made + c else OnLines(text, e + 1, made + c)
  }

  /** What one event calls. */
  function OnEvent(text: string): seq<Callback> {
    OnLines(text, 0, [])
  }

  /** Everything the complete events in `buf` call, and the state that is left. */
  function Drain(buf: string): (r: (seq<Callback>, State))
    decreases |buf|
  {
    var b := Boundary(buf);
    if b.None? then ([], State(buf, false))
    else
      var cs := OnEvent(buf[..b.value]);
      if Ends(cs) then (cs, State("", true))
      else
        var (more, s) := Drain(buf[b.value + 2..]);
        (cs + more, s)
  }

  function FeedBytes(s: State, bytes: string): (seq<Callback>, State) {
    if s.doneSeen then ([], s) else Drain(s.buffer + bytes)
  }

  function FeedAll(s: State, chunks: seq<string>): (seq<Callback>, State) {
    if chunks == [] then ([], s)
    else
      var (cs, s1) := FeedAll(s, chunks[..|chunks| - 1]);
      var (ds, s2) := FeedBytes(s1, chunks[|chunks| - 1]);
      (cs + ds, s2)
  }

  function FinishStream(s: State): (seq<Callback>, State) {
    if s.doneSeen || s.buffer == "" then ([], s)
    else
      var cs := OnEvent(s.buffer);
      (cs, State("", Ends(cs)))
  }

  lemma EndsAppended(calls: seq<Callback>, c: seq<Callback>)
    ensures Ends(c) ==> Ends(calls + c)
    ensures !Ends(calls) && !Ends(c) ==> !Ends(calls + c)
  {
    assert c == [] ==> calls + c == calls;
  }

  class SseParser {
    var buffer: string
    var doneSeen: bool

    ghost function Now(): State
      reads this
    {
      State(buffer, doneSeen)
    }

    constructor ()
      ensures Now() == State("", false)
    {
      buffer, doneSeen := "", false;
    }

    /** Returns the callbacks in the order they are made. */
    method Feed(bytes: string) returns (calls: seq<Callback>)
      modifies this
      ensures (calls, Now()) == FeedBytes(old(Now()), bytes)
    {
      calls := [];
      if doneSeen {
        return;
      }
      buffer := buffer + bytes;
      ghost var all := buffer;
      assert [] + Drain(buffer).0 == Drain(buffer).0;
      while true
        invariant !doneSeen
        invariant Drain(all) == (calls + Drain(buffer).0, Drain(buffer).1)
        decreases |buffer|
      {
        var pos := Boundary(buffer);
        if pos.None? {
          break;
        }
        var more := EmitEvent(buffer[..pos.value]);
        assert calls + (more + Drain(buffer[pos.value + 2..]).0) == (calls + more) + Drain(buffer[pos.value + 2..]).0;
        calls := calls + more;
        buffer := buffer[pos.value + 2..];
        if doneSeen {
          buffer := "";
          return;
        }
      }
      assert calls + [] == calls;
    }

    /** Drains a final event that lacks its blank line. */
    method Finish() returns (calls: seq<Callback>)
      modifies this
      ensures (calls, Now()) == FinishStream(old(Now()))
    {
      calls := [];
      if doneSeen {
        return;
      }
      if buffer == "" {
        return;
      }
      calls := EmitEvent(buffer);
      buffer := "";
    }

    method Reset()
      modifies this
      ensures Now() == State("", false)
    {
      buffer, doneSeen := "", false;
    }

    /** The cursor loop over the lines of one event. */
    method EmitEvent(text: string) returns (calls: seq<Callback>)
      requires !doneSeen
      modifies this`doneSeen
      ensures calls == OnEvent(text)
      ensures doneSeen == Ends(calls)
    {
      hide OnLine;
      calls := [];
      var cursor := 0;
      while cursor < |text|
        invariant !doneSeen && !Ends(calls)
        invariant OnEvent(text) == OnLines(text, cursor, calls)
        decreases |text| - cursor
      {
        var lineEnd := EndOfLine(text, cursor);
        var more := EmitLine(text[cursor..lineEnd]);
        EndsAppended(calls, more);
        cursor := lineEnd + 1;
        calls := calls + more;
        if doneSeen {
          return;
        }
      }
    }

    /** One line: a comment, a payload, the end, or nothing. */
    method EmitLine(line: string) returns (calls: seq<Callback>)
      requires !doneSeen
      modifies this`doneSeen
      ensures calls == OnLine(line)
      ensures doneSeen == Ends(calls)
    {
      calls := [];
      if line == "" {
        return;
      }
      if line[0] == ':' {
        return [Comment(line[1..])];
      }
      if |line| >= |DATA_PREFIX| && line[..|DATA_PREFIX|] == DATA_PREFIX {
        var payload := TrimLeadingSpace(line[|DATA_PREFIX|..]);
        if payload == DONE_SENTINEL {
          doneSeen := true;
          return [Done];
        }
        return [Data(payload)];
      }
    }
  }

  // ----- chunk independence -----

  /** A blank line found in x is found at the same place when more bytes follow. */
  lemma {:induction false} BoundaryStays(x: string, y: string, i: nat)
    requires i <= |x|
    ensures BoundaryFrom(x, i).Some? ==> BoundaryFrom(x + y, i) == BoundaryFrom(x, i)
    decreases |x| - i
  {
    if i + 1 < |x| && !(x[i] == '\n' && x[i + 1] == '\n') {
      BoundaryStays(x, y, i + 1);
    }
  }

  /** Draining one event at a time. */
  lemma DrainOne(buf: string, p: nat, cs: seq<Callback>)
    requires Boundary(buf) == Some(p) && cs == OnEvent(buf[..p])
    ensures Ends(cs) ==> Drain(buf) == (cs, State("", true))
    ensures !Ends(cs) ==> Drain(buf) == (cs + Drain(buf[p + 2..]).0, Drain(buf[p + 2..]).1)
  {
  }

  /** x is drained, then what it leaves is fed y. */
  function DrainThenFeed(x: string, y: string): (seq<Callback>, State) {
    var (cs, s) := Drain(x);
    var (ds, t) := FeedBytes(s, y);
    (cs + ds, t)
  }

  lemma ConcatAssociates(a: seq<Callback>, b: seq<Callback>, c: seq<Callback>)
    ensures (a + b) + c == a + (b + c)
  {
  }

  /** The end of the stream is final. */
  lemma DoneStaysDone(cs: seq<Callback>, y: string)
    ensures FeedBytes(State("", true), y) == ([], State("", true))
    ensures cs + FeedBytes(State("", true), y).0 == cs
  {
  }

  lemma DrainThenFeedOne(x: string, y: string, rest: string, cs: seq<Callback>)
    requires Drain(x) == (cs + Drain(rest).0, Drain(rest).1)
    ensures DrainThenFeed(x, y) == (cs + DrainThenFeed(rest, y).0, DrainThenFeed(rest, y).1)
  {
    ConcatAssociates(cs, Drain(rest).0, FeedBytes(Drain(rest).1, y).0);
  }

  /** Draining x, then what is left with y behind it, is draining x + y. */
  lemma {:induction false} DrainConcat(x: string, y: string)
    ensures Drain(x + y) == DrainThenFeed(x, y)
    decreases |x|
  {
    var b := Boundary(x);
    if b.None? {
      assert [] + Drain(x + y).0 == Drain(x + y).0;
    } else {
      var p := b.value;
      BoundaryStays(x, y, 0);
      assert (x + y)[..p] == x[..p] && (x + y)[p + 2..] == x[p + 2..] + y;
      DrainConcat(x[p + 2..], y);
      var cs := OnEvent(x[..p]);
      DrainOne(x + y, p, cs);
      DrainOne(x, p, cs);
      if Ends(cs) {
        DoneStaysDone(cs, y);
      } else {
        DrainThenFeedOne(x, y, x[p + 2..], cs);
      }
    }
  }

  lemma FeedConcat(s: State, a: string, b: string)
    ensures var (cs, s1) := FeedBytes(s, a);
      var (ds, s2) := FeedBytes(s1, b);
      FeedBytes(s, a + b) == (cs + ds, s2)
  {
    var none: seq<Callback> := [];
    assert none + none == none;
    if !s.doneSeen {
      DrainConcat(s.buffer + a, b);
      assert (s.buffer + a) + b == s.buffer + (a + b);
    }
  }

  function Concat(chunks: seq<string>): string {
    if chunks == [] then "" else Concat(chunks[..|chunks| - 1]) + chunks[|chunks| - 1]
  }

  /** Between feeds the buffer never holds a whole event. */
  lemma {:induction false} DrainLeavesNoEvent(x: string)
    ensures Boundary(Drain(x).1.buffer).None?
    decreases |x|
  {
    var b := Boundary(x);
    if b.Some? {
      DrainLeavesNoEvent(x[b.value + 2..]);
    }
  }

  /** However a stream is cut into chunks: the same callbacks, and the same state. */
  lemma {:induction false} ChunksDoNotMatter(chunks: seq<string>)
    ensures FeedAll(State("", false), chunks) == Drain(Concat(chunks))
  {
    if chunks != [] {
      var front, last := chunks[..|chunks| - 1], chunks[|chunks| - 1];
      ChunksDoNotMatter(front);
      DrainConcat(Concat(front), last);
    }
  }

  // ----- the end of the stream -----

  /** The first blank line of an event that is completed by one. */
  lemma {:induction false} BoundaryOfCompleted(s: string, i: nat)
    requires i <= |s| && s != "" && BoundaryFrom(s, i).None? && (i < |s| || s[|s| - 1] != '\n')
    ensures BoundaryFrom(s + "\n\n", i) == Some(if s[|s| - 1] == '\n' then |s| - 1 else |s|)
    decreases |s| - i
  {
    var t := s + "\n\n";
    assert t[|s|] == '\n' && t[|s| + 1] == '\n';
    if i < |s| {
      assert t[i] == s[i];
      if i + 1 < |s| {
        assert t[i + 1] == s[i + 1];
        BoundaryOfCompleted(s, i + 1);
      } else if s[i] != '\n' {
        BoundaryOfCompleted(s, i + 1);
      }
    }
  }

  /** A line end behind an event calls nothing. */
  lemma {:induction false} LastLineEnd(text: string, i: nat, made: seq<Callback>)
    requires i <= |text|
    ensures OnLines(text + "\n", i, made) == OnLines(text, i, made)
    decreases |text| - i
  {
    hide OnLine;
    var t := text + "\n";
    EndOfLineStays(text, i);
    if i < |text| {
      var e := EndOfLine(text, i);
      assert t[i..e] == text[i..e];
      if e < |text| && !Ends(OnLine(text[i..e])) {
        LastLineEnd(text, e + 1, made + OnLine(text[i..e]));
      }
    } else {
      EmptyLine(t, i, made);
    }
  }

  lemma {:induction false} EndOfLineStays(text: string, i: nat)
    requires i <= |text|
    ensures EndOfLine(text + "\n", i) == EndOfLine(text, i)
    decreases |text| - i
  {
    if i < |text| && text[i] != '\n' {
      EndOfLineStays(text, i + 1);
    }
  }

  lemma EmptyLine(t: string, i: nat, made: seq<Callback>)
    requires i + 1 == |t| && t[i] == '\n'
    ensures OnLines(t, i, made) == made
  {
    assert t[i..i] == "" && made + [] == made;
  }

  /** The event that a blank line behind `b` completes. */
  lemma CompletedEvent(b: string)
    requires b != "" && Boundary(b).None?
    ensures var t := b + "\n\n";
      && Boundary(t).Some? && OnEvent(t[..Boundary(t).value]) == OnEvent(b) && |t[Boundary(t).value + 2..]| <= 1
  {
    BoundaryOfCompleted(b, 0);
    var t := b + "\n\n";
    hide OnLines;
    if b[|b| - 1] == '\n' {
      var text := b[..|b| - 1];
      assert t[..|b| - 1] == text && b == text + "\n";
      LastLineEnd(text, 0, []);
    } else {
      assert t[..|b|] == b;
    }
  }

  /**
   The end of the stream: an event that still lacks its blank line is delivered as if the
   blank line had come, and nothing of it stays behind.
   */
  lemma FinishCompletes(s: State)
    requires Boundary(s.buffer).None?
    ensures s.doneSeen ==> FinishStream(s) == ([], s)
    ensures s.buffer == "" ==> FinishStream(s).0 == []
    ensures !s.doneSeen && s.buffer != "" ==> FinishStream(s).0 == FeedBytes(s, "\n\n").0
    ensures !s.doneSeen ==> FinishStream(s).1 == State("", Ends(FinishStream(s).0))
  {
    if !s.doneSeen && s.buffer != "" {
      CompletedEvent(s.buffer);
      hide OnEvent, Ends;
      var t := s.buffer + "\n\n";
      var p, cs := Boundary(t).value, OnEvent(s.buffer);
      DrainOne(t, p, cs);
      assert Drain(t[p + 2..]).0 == [] && cs + [] == cs;
    }
  }

  // ----- round trip -----

  const END_EVENT := "data: [DONE]\n\n"

  /** A server's encoding of the payloads, one event each. */
  function Encode(ps: seq<string>): string {
    if ps == [] then "" else "data: " + ps[0] + "\n\n" + Encode(ps[1..])
  }

  function AsData(ps: seq<string>): seq<Callback> {
    seq(|ps|, i requires 0 <= i < |ps| => Data(ps[i]))
  }

  predicate Sendable(p: string) {
    '\n' !in p && p != DONE_SENTINEL
  }

  lemma {:induction false} NoBoundaryBefore(s: string, n: nat, i: nat)
    requires i <= n && n + 1 < |s| && s[n] == '\n' && s[n + 1] == '\n' && '\n' !in s[i..n]
    ensures BoundaryFrom(s, i) == Some(n)
    decreases n - i
  {
    if i < n {
      assert s[i] == s[i..n][0];
      assert s[i + 1..n] == s[i..n][1..];
      NoBoundaryBefore(s, n, i + 1);
    }
  }

  lemma {:induction false} NoLineEnd(s: string, i: nat)
    requires i <= |s| && '\n' !in s[i..]
    ensures EndOfLine(s, i) == |s|
    decreases |s| - i
  {
    if i < |s| {
      assert s[i] == s[i..][0] && s[i + 1..] == s[i..][1..];
      NoLineEnd(s, i + 1);
    }
  }

  /** One encoded event, whatever follows it. */
  lemma OneEvent(p: string, rest: string)
    requires '\n' !in p
    ensures var buf := "data: " + p + "\n\n" + rest;
      && Boundary(buf) == Some(|p| + 6) && buf[|p| + 8..] == rest
      && OnEvent(buf[..|p| + 6]) == if p == DONE_SENTINEL then [Done] else [Data(p)]
  {
    var line := "data: " + p;
    var buf := "data: " + p + "\n\n" + rest;
    assert buf[..|p| + 6] == line;
    assert buf[0..|p| + 6] == line;
    NoBoundaryBefore(buf, |p| + 6, 0);
    NoLineEnd(line, 0);
    assert line[0..|line|] == line;
    assert line[..5] == "data:" && line[5..] == " " + p;
    assert (" " + p)[1..] == p;
    var c := if p == DONE_SENTINEL then [Done] else [Data(p)];
    assert OnLine(line) == c && [] + c == c;
    assert OnLines(line, |line| + 1, c) == c;
  }

  lemma EncodeFirst(ps: seq<string>, tail: string)
    requires ps != []
    ensures Encode(ps) + tail == "data: " + ps[0] + "\n\n" + (Encode(ps[1..]) + tail)
  {
    var e := Encode(ps[1..]);
    var head := "data: " + ps[0] + "\n\n";
    assert (head + e) + tail == head + (e + tail);
  }

  lemma AsDataFirst(ps: seq<string>)
    requires ps != []
    ensures AsData(ps) + [Done] == [Data(ps[0])] + (AsData(ps[1..]) + [Done])
  {
    assert AsData(ps) == [Data(ps[0])] + AsData(ps[1..]);
  }

  lemma EndEventSpelled(rest: string)
    ensures END_EVENT + rest == "data: " + DONE_SENTINEL + "\n\n" + rest
  {
    assert END_EVENT == "data: " + DONE_SENTINEL + "\n\n";
  }

  lemma {:induction false} EncodedStreamDecodes(ps: seq<string>, rest: string)
    requires forall p | p in ps :: Sendable(p)
    ensures Drain(Encode(ps) + (END_EVENT + rest)) == (AsData(ps) + [Done], State("", true))
  {
    var tail := END_EVENT + rest;
    if ps == [] {
      OneEvent(DONE_SENTINEL, rest);
      EndEventSpelled(rest);
      DrainOne(tail, |DONE_SENTINEL| + 6, [Done]);
      assert "" + tail == tail && AsData(ps) + [Done] == [Done];
    } else {
      var p, more := ps[0], Encode(ps[1..]) + tail;
      assert p in ps;
      OneEvent(p, more);
      EncodeFirst(ps, tail);
      DrainOne(Encode(ps) + tail, |p| + 6, [Data(p)]);
      EncodedStreamDecodes(ps[1..], rest);
      AsDataFirst(ps);
    }
  }

  lemma LinePayloadIsSendable(line: string)
    requires '\n' !in line
    ensures forall c | c in OnLine(line) && c.Data? :: Sendable(c.payload)
  {
    if DATA_PREFIX <= line {
      var rest := line[|DATA_PREFIX|..];
      assert forall c | c in rest :: c in line;
      assert forall c | c in TrimLeadingSpace(rest) :: c in rest;
    }
  }

  /** No payload the parser hands on contains a line end or is the sentinel. */
  lemma {:induction false} EventPayloadsAreSendable(text: string, i: nat, made: seq<Callback>)
    requires forall c | c in made && c.Data? :: Sendable(c.payload)
    ensures forall c | c in OnLines(text, i, made) && c.Data? :: Sendable(c.payload)
    decreases |text| - i
  {
    hide OnLine, Sendable;
    if i < |text| {
      var e := EndOfLine(text, i);
      var c := OnLine(text[i..e]);
      LineHasNoEnd(text, i);
      LinePayloadIsSendable(text[i..e]);
      assert forall x | x in made + c :: x in made || x in c;
      if !Ends(c) {
        EventPayloadsAreSendable(text, e + 1, made + c);
      }
    }
  }

  lemma {:induction false} PayloadsAreSendable(x: string)
    ensures forall c | c in Drain(x).0 && c.Data? :: Sendable(c.payload)
    decreases |x|
  {
    hide OnLines, Sendable;
    var b := Boundary(x);
    if b.Some? {
      EventPayloadsAreSendable(x[..b.value], 0, []);
      PayloadsAreSendable(x[b.value + 2..]);
    }
  }

  /**
   The round trip: in any chunks, and whatever garbage follows, an encoded list of payloads
   comes back as exactly those payloads and one end, if and only if no payload contains a
   line end or is the sentinel itself.
   */
  lemma RoundTrip(ps: seq<string>, garbage: string, chunks: seq<string>)
    requires Concat(chunks) == Encode(ps) + (END_EVENT + garbage)
    ensures FeedAll(State("", false), chunks) == (AsData(ps) + [Done], State("", true))
       <==> forall p | p in ps :: Sendable(p)
  {
    ChunksDoNotMatter(chunks);
    if forall p | p in ps :: Sendable(p) {
      EncodedStreamDecodes(ps, garbage);
    } else {
      PayloadsAreSendable(Concat(chunks));
      var p :| p in ps && !Sendable(p);
      var i :| 0 <= i < |ps| && ps[i] == p;
      assert (AsData(ps) + [Done])[i] == Data(p);
    }
  }

  // ----- any stream -----

  /** A line of an event: a payload, with or without a blank in front, a comment, or something else. */
  datatype Line = Payload(text: string, spaced: bool) | Remark(text: string) | Other(text: string)

  predicate Writable(l: Line) {
    '\n' !in l.text &&
    match l
    case Payload(t, spaced) => !spaced ==> t == "" || t[0] != ' '
    case Remark(_) => true
    case Other(t) => t != "" && t[0] != ':' && !("data:" <= t)
  }

  function Spell(l: Line): string {
    match l
    case Payload(t, spaced) => if spaced then "data: " + t else "data:" + t
    case Remark(t) => ":" + t
    case Other(t) => t
  }

  /** What the lines say, up to the end of the stream. */
  function Says(ls: seq<Line>): seq<Callback> {
    if ls == [] then []
    else
      match ls[0]
      case Payload(t, _) => if t == "[DONE]" then [Done] else [Data(t)] + Says(ls[1..])
      case Remark(t) => [Comment(t)] + Says(ls[1..])
      case Other(_) => Says(ls[1..])
  }

  function SpellLines(ls: seq<Line>): string {
    if ls == [] then "" else Spell(ls[0]) + "\n" + SpellLines(ls[1..])
  }

  /** Events, each a list of lines that a blank line ends. */
  function SpellStream(events: seq<seq<Line>>): string {
    if events == [] then "" else SpellLines(events[0]) + "\n" + SpellStream(events[1..])
  }

  function AllLines(events: seq<seq<Line>>): seq<Line> {
    if events == [] then [] else events[0] + AllLines(events[1..])
  }

  predicate WritableLines(ls: seq<Line>) {
    forall l | l in ls :: Writable(l)
  }

  lemma LineMeans(l: Line)
    requires Writable(l)
    ensures Spell(l) != "" && '\n' !in Spell(l)
    ensures OnLine(Spell(l)) ==
      match l
      case Payload(t, _) => if t == "[DONE]" then [Done] else [Data(t)]
      case Remark(t) => [Comment(t)]
      case Other(_) => []
  {
    match l
    case Payload(t, spaced) =>
      var line := Spell(l);
      assert line[..5] == "data:" && line[5..] == if spaced then " " + t else t;
      assert spaced ==> (" " + t)[1..] == t;
    case Remark(t) => assert (":" + t)[1..] == t;
    case Other(t) =>
  }

  // Text behind a prefix is read as it is read alone.

  lemma {:induction false} BoundaryBehind(pre: string, t: string, i: nat)
    requires i <= |t|
    ensures BoundaryFrom(pre + t, |pre| + i)
      == if BoundaryFrom(t, i).None? then None else Some(|pre| + BoundaryFrom(t, i).value)
    decreases |t| - i
  {
    if i + 1 < |t| {
      assert (pre + t)[|pre| + i] == t[i] && (pre + t)[|pre| + i + 1] == t[i + 1];
      BoundaryBehind(pre, t, i + 1);
    }
  }

  lemma {:induction false} EndOfLineBehind(pre: string, t: string, i: nat)
    requires i <= |t|
    ensures EndOfLine(pre + t, |pre| + i) == |pre| + EndOfLine(t, i)
    decreases |t| - i
  {
    if i < |t| {
      assert (pre + t)[|pre| + i] == t[i];
      EndOfLineBehind(pre, t, i + 1);
    }
  }

  lemma {:induction false} LinesBehind(pre: string, t: string, i: nat, made: seq<Callback>)
    ensures OnLines(pre + t, |pre| + i, made) == OnLines(t, i, made)
    decreases |t| - i
  {
    hide OnLine;
    if i < |t| {
      var e := EndOfLine(t, i);
      EndOfLineBehind(pre, t, i);
      assert (pre + t)[|pre| + i..|pre| + e] == t[i..e];
      LinesBehind(pre, t, e + 1, made + OnLine(t[i..e]));
    }
  }

  lemma {:induction false} EndOfFirstLine(line: string, more: string, i: nat)
    requires '\n' !in line && i <= |line|
    ensures EndOfLine(line + ("\n" + more), i) == |line|
    decreases |line| - i
  {
    var t := line + ("\n" + more);
    if i < |line| {
      assert t[i] == line[i];
      EndOfFirstLine(line, more, i + 1);
    } else {
      assert t[i] == '\n';
    }
  }

  lemma {:induction false} NoBoundaryInLine(line: string, more: string, i: nat)
    requires '\n' !in line && i <= |line|
    ensures BoundaryFrom(line + ("\n" + more), i) == BoundaryFrom(line + ("\n" + more), |line|)
    decreases |line| - i
  {
    var t := line + ("\n" + more);
    if i < |line| {
      assert t[i] == line[i];
      NoBoundaryInLine(line, more, i + 1);
    }
  }

  /** The first of some lines, and those behind it. */
  lemma FirstLine(line: string, more: string, made: seq<Callback>)
    requires '\n' !in line && line != ""
    ensures var t := line + ("\n" + more);
      OnLines(t, 0, made) == if Ends(OnLine(line)) then made + OnLine(line) else OnLines(more, 0, made + OnLine(line))
  {
    hide OnLine;
    var t := line + ("\n" + more);
    EndOfFirstLine(line, more, 0);
    assert t[0..|line|] == line;
    assert (line + "\n") + more == t;
    LinesBehind(line + "\n", more, 0, made + OnLine(line));
  }

  lemma BoundaryAtLineEnd(line: string, more: string)
    requires more != ""
    ensures var t := line + ("\n" + more);
      BoundaryFrom(t, |line|) == if more[0] == '\n' then Some(|line|) else BoundaryFrom(t, |line| + 1)
  {
    var t := line + ("\n" + more);
    assert t[|line|] == '\n' && t[|line| + 1] == more[0];
  }

  lemma FirstBoundary(t: string, line: string, more: string)
    requires t == line + ("\n" + more) && '\n' !in line && more != ""
    ensures Boundary(t) == if more[0] == '\n' then Some(|line|)
                     else if Boundary(more).None? then None else Some(|line| + 1 + Boundary(more).value)
  {
    NoBoundaryInLine(line, more, 0);
    BoundaryAtLineEnd(line, more);
    BoundaryBehindLine(t, line, more);
    hide BoundaryFrom;
  }

  lemma BoundaryBehindLine(t: string, line: string, more: string)
    requires t == line + ("\n" + more)
    ensures BoundaryFrom(t, |line| + 1) == if Boundary(more).None? then None else Some(|line| + 1 + Boundary(more).value)
  {
    hide BoundaryFrom;
    assert (line + "\n") + more == t;
    BoundaryBehind(line + "\n", more, 0);
  }

  lemma RegroupText(line: string, a: string, tail: string)
    ensures (line + "\n" + a) + tail == line + ("\n" + (a + tail)) && |line + "\n" + a| == |line| + 1 + |a|
  {
  }

  lemma SpelledFirst(ls: seq<Line>, tail: string)
    requires ls != [] && Writable(ls[0])
    ensures var line := Spell(ls[0]);
      && SpellLines(ls) + tail == line + ("\n" + (SpellLines(ls[1..]) + tail))
      && line != "" && line[0] != '\n' && |SpellLines(ls)| == |line| + 1 + |SpellLines(ls[1..])|
  {
    LineMeans(ls[0]);
    RegroupText(Spell(ls[0]), SpellLines(ls[1..]), tail);
    assert SpellLines(ls) == Spell(ls[0]) + "\n" + SpellLines(ls[1..]);
    hide *;
  }

  /** Whether a line end or another line follows a line. */
  lemma NextByte(ls: seq<Line>, rest: string)
    requires ls == [] || Writable(ls[0])
    ensures var more := SpellLines(ls) + ("\n" + rest); more != "" && (more[0] == '\n' <==> ls == [])
  {
    if ls != [] {
      SpelledFirst(ls, "\n" + rest);
    }
    hide Spell, Writable;
  }

  lemma TailIsWritable(ls: seq<Line>)
    requires ls != [] && WritableLines(ls)
    ensures Writable(ls[0]) && WritableLines(ls[1..]) && (ls[1..] != [] ==> Writable(ls[1..][0]))
  {
    assert ls[0] in ls && forall l | l in ls[1..] :: l in ls;
    assert ls[1..] != [] ==> ls[1..][0] in ls;
    hide Writable;
  }

  /** An event ends where its lines do. */
  lemma {:induction false} BoundaryOfLines(ls: seq<Line>, rest: string)
    requires ls != [] && WritableLines(ls)
    ensures |SpellLines(ls)| > 0 && Boundary(SpellLines(ls) + ("\n" + rest)) == Some(|SpellLines(ls)| - 1)
    decreases |ls|
  {
    TailIsWritable(ls);
    LineMeans(ls[0]);
    SpelledFirst(ls, "\n" + rest);
    NextByte(ls[1..], rest);
    assert |SpellLines([])| == 0;
    var line, t, more := Spell(ls[0]), SpellLines(ls) + ("\n" + rest), SpellLines(ls[1..]) + ("\n" + rest);
    hide *;
    FirstBoundary(t, line, more);
    if ls[1..] != [] {
      BoundaryOfLines(ls[1..], rest);
    }
  }

  lemma Regroup(made: seq<Callback>, c: seq<Callback>, more: seq<Callback>)
    ensures (made + c) + more == made + (c + more) && [] + more == more && made + [] == made
  {
  }

  lemma FirstSays(ls: seq<Line>)
    requires ls != [] && Writable(ls[0])
    ensures var c := OnLine(Spell(ls[0])); Says(ls) == if Ends(c) then c else c + Says(ls[1..])
  {
    LineMeans(ls[0]);
    hide OnLine, Spell, Writable;
    Regroup([], [], Says(ls[1..]));
  }

  /** Spelled lines say what they say, one after the other, until the end of the stream. */
  lemma {:induction false} LinesMean(ls: seq<Line>, made: seq<Callback>)
    requires WritableLines(ls)
    ensures OnLines(SpellLines(ls), 0, made) == made + Says(ls)
    decreases |ls|
  {
    if ls == [] {
      Regroup(made, [], []);
    } else {
      assert ls[0] in ls && forall l | l in ls[1..] :: l in ls;
      var line, more := Spell(ls[0]), SpellLines(ls[1..]);
      FirstSays(ls);
      LineMeans(ls[0]);
      SpelledFirst(ls, "");
      hide OnLine, Spell, SpellLines, Says, Writable, OnLines;
      assert SpellLines(ls) + "" == SpellLines(ls) && more + "" == more;
      FirstLine(line, more, made);
      LinesMean(ls[1..], made + OnLine(line));
      Regroup(made, OnLine(line), Says(ls[1..]));
    }
  }

  lemma {:induction false} SaysConcat(a: seq<Line>, b: seq<Line>)
    ensures Says(a + b) == if Ends(Says(a)) then Says(a) else Says(a) + Says(b)
  {
    if a == [] {
      assert a + b == b && [] + Says(b) == Says(b);
    } else {
      assert (a + b)[1..] == a[1..] + b;
      SaysConcat(a[1..], b);
    }
  }

  lemma LinesAreEvent(ls: seq<Line>)
    requires WritableLines(ls) && SpellLines(ls) != "" && SpellLines(ls)[|SpellLines(ls)| - 1] == '\n'
    ensures OnEvent(SpellLines(ls)[..|SpellLines(ls)| - 1]) == Says(ls)
  {
    hide Spell, SpellLines, Says, OnLines, Writable;
    var e := SpellLines(ls);
    var text := e[..|e| - 1];
    assert text + "\n" == e;
    LastLineEnd(text, 0, []);
    LinesMean(ls, []);
    Regroup([], [], Says(ls));
  }

  /** One spelled event in front of anything. */
  lemma EventMeans(ls: seq<Line>, rest: string)
    requires ls != [] && WritableLines(ls)
    ensures var e := SpellLines(ls);
      |e| > 0 && Boundary(e + ("\n" + rest)) == Some(|e| - 1) && (e + ("\n" + rest))[|e| + 1..] == rest
      && OnEvent((e + ("\n" + rest))[..|e| - 1]) == Says(ls)
  {
    hide Spell, SpellLines, Says, OnLines, Writable;
    var e := SpellLines(ls);
    var s := e + ("\n" + rest);
    BoundaryOfLines(ls, rest);
    assert s[|e| - 1] == e[|e| - 1];
    LinesAreEvent(ls);
    assert s[..|e| - 1] == e[..|e| - 1];
  }

  lemma EventDrains(ls: seq<Line>, rest: string)
    requires ls != [] && WritableLines(ls)
    ensures Drain(SpellLines(ls) + "\n" + rest)
         == if Ends(Says(ls)) then (Says(ls), State("", true)) else (Says(ls) + Drain(rest).0, Drain(rest).1)
  {
    EventMeans(ls, rest);
    var e := SpellLines(ls);
    var t := e + ("\n" + rest);
    assert e + "\n" + rest == t;
    hide *;
    DrainOne(t, |e| - 1, Says(ls));
  }

  lemma {:induction false} StreamDrains(events: seq<seq<Line>>)
    requires forall e | e in events :: e != [] && WritableLines(e)
    ensures var said := Says(AllLines(events)); Drain(SpellStream(events)) == (said, State("", Ends(said)))
  {
    if events != [] {
      var ls := events[0];
      assert ls in events && forall e | e in events[1..] :: e in events;
      hide Drain, Says, SpellLines, WritableLines, Ends;
      EventDrains(ls, SpellStream(events[1..]));
      StreamDrains(events[1..]);
      SaysConcat(ls, AllLines(events[1..]));
      EndsAppended(Says(ls), Says(AllLines(events[1..])));
    } else {
      assert Drain("") == ([], State("", false));
    }
  }

  /**
   Any stream of complete events, in any chunks: payloads, with or without a blank in front,
   comments and the end are called in order, other lines call nothing, and nothing is called
   behind the end.
   */
  lemma StreamMeansItsLines(events: seq<seq<Line>>, chunks: seq<string>)
    requires forall e | e in events :: e != [] && WritableLines(e)
    requires Concat(chunks) == SpellStream(events)
    ensures var said := Says(AllLines(events)); FeedAll(State("", false), chunks) == (said, State("", Ends(said)))
  {
    ChunksDoNotMatter(chunks);
    StreamDrains(events);
  }
}
