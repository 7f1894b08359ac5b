/**
 The streaming sentence splitter (src/dialogue/sentence_splitter.cpp).

 A `char` stands for one byte of the LLM's text. `State`, `Step` and `Feed` say what
 one byte and then any number of bytes do to the splitter; the class below is the
 program itself, proved to do exactly that. A `Piece` is the stretch of input that one
 split removes from the buffer, with the reason for the split.
 */
module Splitting {
  import opened Wrappers

  datatype Config = Config(maxSentenceChars: nat, detectCodeFences: bool)

  datatype Mode = Normal | InCodeFence

  datatype State = State(buf: string, mode: Mode, counter: nat, pending: Option<nat>, dotRun: nat)

  /** Why the buffer was cut; a terminator split remembers the byte that followed it. */
  datatype Cause = Terminator(next: char) | Forced | EndOfStream

  datatype Piece = Piece(raw: string, cause: Cause)

  const ABBREVIATIONS: set<string> := {
    "dr", "mr", "mrs", "ms", "prof", "sr", "jr",
    "e.g", "i.e", "etc", "vs", "vol", "no", "fig", "approx",
    "st", "ave", "blvd", "rd", "u.s", "u.k", "u.s.a", "a.m", "p.m"
  }

  const INITIAL := State("", Normal, 0, None, 0)

  predicate IsLower(c: char) { 'a' <= c <= 'z' }
  predicate IsUpper(c: char) { 'A' <= c <= 'Z' }
  predicate IsDigit(c: char) { '0' <= c <= '9' }
  predicate IsTerminator(c: char) { c == '.' || c == '!' || c == '?' }
  predicate IsWhitespace(c: char) { c == ' ' || c == '\t' || c == '\n' || c == '\r' }
  predicate IsMarkerChar(c: char) { IsDigit(c) || IsLower(c) || IsUpper(c) }
  predicate IsAbbreviationChar(c: char) { IsMarkerChar(c) || c == '.' }

  function ToLower(c: char): char {
    if IsUpper(c) then (c as int + ('a' as int - 'A' as int)) as char else c
  }

  function LowerCase(s: string): (r: string)
    ensures |r| == |s|
    ensures forall k | 0 <= k < |s| :: r[k] == ToLower(s[k])
  {
    seq(|s|, k requires 0 <= k < |s| => ToLower(s[k]))
  }

  /** s[i..] is the longest suffix of s made of letters, digits and inner dots. */
  ghost predicate LastWordAt(s: string, i: int) {
    0 <= i <= |s| &&
    (forall k | i <= k < |s| :: IsAbbreviationChar(s[k])) && (i == 0 || !IsAbbreviationChar(s[i - 1]))
  }

  /** s[i..] is the longest suffix of s made of letters and digits. */
  ghost predicate LastMarkerAt(s: string, i: int) {
    0 <= i <= |s| &&
    (forall k | i <= k < |s| :: IsMarkerChar(s[k])) && (i == 0 || !IsMarkerChar(s[i - 1]))
  }

  predicate EndsWithDot(s: string) {
    |s| >= 2 && s[|s| - 1] == '.'
  }

  /** The word before a final dot is a known abbreviation. */
  ghost predicate EndsWithAbbreviation(s: string) {
    EndsWithDot(s) &&
    var t := s[..|s| - 1];
    exists i :: LastWordAt(t, i) && i < |t| && LowerCase(t[i..]) in ABBREVIATIONS
  }

  /** One to three letters or digits stand before a final dot, after blank space or at the start. */
  ghost predicate EndsWithListMarker(s: string) {
    EndsWithDot(s) &&
    var t := s[..|s| - 1];
    exists i :: LastMarkerAt(t, i) && 1 <= |t| - i <= 3 && (i == 0 || IsWhitespace(t[i - 1]))
  }

  predicate EndsWithDecimal(s: string) {
    EndsWithDot(s) && IsDigit(s[|s| - 2])
  }

  predicate EndsWithDots(s: string, n: nat) {
    |s| >= n && forall k | |s| - n <= k < |s| :: s[k] == '.'
  }

  /** Three dots, or the three bytes of the one-character ellipsis. */
  predicate EndsWithEllipsis(s: string) {
    EndsWithDots(s, 3) ||
    (|s| >= 3 && s[|s| - 3] == '\U{E2}' && s[|s| - 2] == '\U{80}' && s[|s| - 1] == '\U{A6}')
  }

  predicate EndsWithFence(s: string) {
    |s| >= 3 && s[|s| - 3] == '`' && s[|s| - 2] == '`' && s[|s| - 1] == '`'
  }

  predicate PendingInBuffer(s: State) {
    s.pending.Some? ==> s.pending.value < |s.buf|
  }

  function TrimLeading(s: string): string {
    if s != "" && IsWhitespace(s[0]) then TrimLeading(s[1..]) else s
  }

  /** The sentences a list of pieces gives: trimmed, and blank pieces dropped. */
  function Sentences(ps: seq<Piece>): seq<string> {
    if ps == [] then []
    else
      var t := TrimLeading(ps[|ps| - 1].raw);
      Sentences(ps[..|ps| - 1]) + (if t == "" then [] else [t])
  }

  function Flatten(ps: seq<Piece>): string {
    if ps == [] then "" else Flatten(ps[..|ps| - 1]) + ps[|ps| - 1].raw
  }

  function Toggle(m: Mode): Mode {
    if m == Normal then InCodeFence else Normal
  }

  /** The decision about byte `c`, the last of s.buf, once no earlier terminator is pending. */
  ghost function Examine(cfg: Config, s: State, c: char): (r: (State, seq<Piece>))
    requires s.buf != "" && s.pending.None?
    ensures PendingInBuffer(r.0)
  {
    if IsTerminator(c) then
      if EndsWithAbbreviation(s.buf) || EndsWithListMarker(s.buf) then
        (s.(dotRun := 0), [])
      else if EndsWithDecimal(s.buf) then
        (s.(pending := Some(|s.buf| - 1), dotRun := 1), [])
      else if EndsWithEllipsis(s.buf) then
        (s.(dotRun := 0), [])
      else
        (s.(pending := Some(|s.buf| - 1), dotRun := if c == '.' then 1 else 0), [])
    else if s.counter + 1 >= cfg.maxSentenceChars && (IsWhitespace(c) || c == ',') then
      (State("", s.mode, 0, None, 0), [Piece(s.buf, Forced)])
    else
      (s.(counter := s.counter + 1), [])
  }

  /** Outside a fence: byte `c`, already the last of s.buf, may settle a pending terminator. */
  ghost function Settle(cfg: Config, s: State, c: char): (r: (State, seq<Piece>))
    requires s.pending.Some? ==> s.pending.value < |s.buf| - 1
    requires s.buf != ""
    ensures PendingInBuffer(r.0)
  {
    if s.pending.None? then
      Examine(cfg, s, c)
    else if c == '.' && s.buf[s.pending.value] == '.' then
      (s.(dotRun := s.dotRun + 1), [])
    else if IsDigit(c) || s.dotRun >= 2 then
      (s.(pending := None, dotRun := 0, counter := s.counter + 1), [])
    else
      var (s2, ps) := Examine(cfg, AfterCut(s), c);
      (s2, [Piece(s.buf[..s.pending.value + 1], Terminator(c))] + ps)
  }

  /** The state once the buffer has been cut after its pending terminator. */
  function AfterCut(s: State): State
    requires s.pending.Some? && s.pending.value < |s.buf|
  {
    var rest := s.buf[s.pending.value + 1..];
    State(rest, s.mode, |rest|, None, s.dotRun)
  }

  /** What one incoming byte does. */
  ghost function Step(cfg: Config, s: State, c: char): (r: (State, seq<Piece>))
    requires PendingInBuffer(s)
    ensures PendingInBuffer(r.0)
  {
    var buf := s.buf + [c];
    var mode := if cfg.detectCodeFences && EndsWithFence(buf) then Toggle(s.mode) else s.mode;
    var s1 := s.(buf := buf, mode := mode);
    if mode == InCodeFence then
      (s1.(counter := s.counter + 1), [])
    else
      Settle(cfg, s1, c)
  }

  /** What a whole string of bytes does, whatever the pieces it arrives in. */
  ghost function Feed(cfg: Config, s: State, text: string): (r: (State, seq<Piece>))
    requires PendingInBuffer(s)
    ensures PendingInBuffer(r.0)
  {
    if text == "" then (s, [])
    else
      var (s1, ps) := Feed(cfg, s, text[..|text| - 1]);
      var (s2, qs) := Step(cfg, s1, text[|text| - 1]);
      (s2, ps + qs)
  }

  /** What the end of the stream does: the rest of the buffer becomes the last piece. */
  function Finish(s: State): (State, seq<Piece>) {
    (State("", s.mode, 0, None, 0), if s.buf == "" then [] else [Piece(s.buf, EndOfStream)])
  }

  lemma SentencesConcat(ps: seq<Piece>, qs: seq<Piece>)
    ensures Sentences(ps + qs) == Sentences(ps) + Sentences(qs)
  {
    if qs == [] {
      assert ps + qs == ps;
    } else {
      var n := |ps + qs|;
      assert (ps + qs)[..n - 1] == ps + qs[..|qs| - 1];
      SentencesConcat(ps, qs[..|qs| - 1]);
    }
  }

  /** The splitter as the program has it. */
  class SentenceSplitter {
    const cfg: Config
    var buf: string
    var mode: Mode
    var charsSinceTerminator: nat
    var pendingTermPos: Option<nat>
    var pendingDotRun: nat

    ghost function Now(): State
      reads this
    {
      State(buf, mode, charsSinceTerminator, pendingTermPos, pendingDotRun)
    }

    ghost predicate Valid()
      reads this
    {
      PendingInBuffer(Now())
    }

    constructor (cfg: Config)
      ensures Valid() && this.cfg == cfg && Now() == INITIAL
    {
      this.cfg := cfg;
      buf, mode, charsSinceTerminator, pendingTermPos, pendingDotRun := "", Normal, 0, None, 0;
    }

    method Reset()
      modifies this
      ensures Valid() && Now() == INITIAL
    {
      buf, mode, charsSinceTerminator, pendingTermPos, pendingDotRun := "", Normal, 0, None, 0;
    }

    /** Appends `text`; returns the sentences it completes. */
    method Push(text: string) returns (out: seq<string>)
      requires Valid()
      modifies this
      ensures Valid()
      ensures Now() == Feed(cfg, old(Now()), text).0
      ensures out == Sentences(Feed(cfg, old(Now()), text).1)
    {
      out := [];
      ghost var start := Now();
      for i := 0 to |text|
        invariant Valid()
        invariant Now() == Feed(cfg, start, text[..i]).0
        invariant out == Sentences(Feed(cfg, start, text[..i]).1)
      {
        assert text[..i + 1][..i] == text[..i];
        ghost var pieces := Feed(cfg, start, text[..i]).1;
        var more := PushChar(text[i]);
        SentencesConcat(pieces, Step(cfg, Feed(cfg, start, text[..i]).0, text[i]).1);
        out := out + more;
      }
      assert text[..|text|] == text;
    }

    /** One turn of the loop in `push`. */
    method PushChar(c: char) returns (out: seq<string>)
      requires Valid()
      modifies this
      ensures Valid()
      ensures Now() == Step(cfg, old(Now()), c).0
      ensures out == Sentences(Step(cfg, old(Now()), c).1)
    {
      out := [];
      buf := buf + [c];
      if cfg.detectCodeFences && EndsWithFence(buf) {
        mode := if mode == Normal then InCodeFence else Normal;
      }
      if mode == InCodeFence {
        charsSinceTerminator := charsSinceTerminator + 1;
        return;
      }
      out := SettlePending(c);
    }

    /** The middle of the loop body: a deferred terminator, if there is one. */
    method SettlePending(c: char) returns (out: seq<string>)
      requires buf != "" && buf[|buf| - 1] == c
      requires pendingTermPos.Some? ==> pendingTermPos.value < |buf| - 1
      modifies this
      ensures Valid()
      ensures Now() == Settle(cfg, old(Now()), c).0
      ensures out == Sentences(Settle(cfg, old(Now()), c).1)
    {
      hide Examine;
      out := [];
      if pendingTermPos.Some? {
        var prevTerm := buf[pendingTermPos.value];
        if c == '.' && prevTerm == '.' {
          pendingDotRun := pendingDotRun + 1;
          return;
        }
        if IsDigit(c) {
          pendingTermPos, pendingDotRun := None, 0;
          charsSinceTerminator := charsSinceTerminator + 1;
          return;
        }
        if pendingDotRun >= 2 {
          pendingTermPos, pendingDotRun := None, 0;
          charsSinceTerminator := charsSinceTerminator + 1;
          return;
        }
        ghost var head := [Piece(buf[..pendingTermPos.value + 1], Terminator(c))];
        out := ResolvePending(Terminator(c));
        SentencesConcat(head, Examine(cfg, Now(), c).1);
      }
      var more := ExamineLast(c);
      out := out + more;
    }

    /** The rest of the loop body: terminators, then the forced flush. */
    method ExamineLast(c: char) returns (out: seq<string>)
      requires buf != "" && buf[|buf| - 1] == c && pendingTermPos.None?
      modifies this
      ensures Valid()
      ensures Now() == Examine(cfg, old(Now()), c).0
      ensures out == Sentences(Examine(cfg, old(Now()), c).1)
    {
      hide EndsWithAbbreviation, EndsWithListMarker;
      out := [];
      if IsTerminator(c) {
        var abbreviation := LastWordIsAbbreviation();
        var marker := BufferEndsWithListMarker();
        if abbreviation || marker {
          pendingTermPos, pendingDotRun := None, 0;
          return;
        }
        if EndsWithDecimal(buf) {
          pendingTermPos, pendingDotRun := Some(|buf| - 1), 1;
          return;
        }
        if EndsWithEllipsis(buf) {
          pendingTermPos, pendingDotRun := None, 0;
          return;
        }
        pendingTermPos, pendingDotRun := Some(|buf| - 1), if c == '.' then 1 else 0;
        return;
      }
      charsSinceTerminator := charsSinceTerminator + 1;
      if charsSinceTerminator >= cfg.maxSentenceChars && (IsWhitespace(c) || c == ',') {
        out := FlushBuffer(Forced);
      }
    }

    /** Stream end: emits what is left, if it is not blank. */
    method Flush() returns (out: seq<string>)
      requires Valid()
      modifies this
      ensures Valid()
      ensures Now() == Finish(old(Now())).0
      ensures buf == "" && mode == old(mode) && charsSinceTerminator == 0 && pendingTermPos == None && pendingDotRun == 0
      ensures out == Sentences(Finish(old(Now())).1)
    {
      pendingTermPos, pendingDotRun := None, 0;
      out := [];
      if buf != "" {
        out := FlushBuffer(EndOfStream);
      }
      charsSinceTerminator := 0;
    }

    /** Cuts just after the pending terminator and keeps the rest. */
    method ResolvePending(ghost cause: Cause) returns (out: seq<string>)
      requires Valid() && pendingTermPos.Some?
      modifies this
      ensures var p := old(pendingTermPos).value;
        && Now() == AfterCut(old(Now()))
        && out == Sentences([Piece(old(buf)[..p + 1], cause)])
    {
      var pos := pendingTermPos.value;
      pendingTermPos := None;
      var head, tail := buf[..pos + 1], buf[pos + 1..];
      buf := tail;
      charsSinceTerminator := |buf|;
      var sentence := Trim(head);
      out := if sentence != "" then [sentence] else [];
      OnePiece(head, cause);
    }

    method FlushBuffer(ghost cause: Cause) returns (out: seq<string>)
      modifies this
      ensures Now() == State("", old(mode), 0, None, 0)
      ensures out == Sentences([Piece(old(buf), cause)])
    {
      var sentence := Trim(buf);
      OnePiece(buf, cause);
      buf, charsSinceTerminator, pendingTermPos, pendingDotRun := "", 0, None, 0;
      out := if sentence != "" then [sentence] else [];
    }

    static method Trim(s: string) returns (r: string)
      ensures r == TrimLeading(s)
    {
      var i := 0;
      while i < |s| && IsWhitespace(s[i])
        invariant i <= |s|
        invariant TrimLeading(s[i..]) == TrimLeading(s)
      {
        i := i + 1;
      }
      r := s[i..];
    }

    static lemma OnePiece(raw: string, cause: Cause)
      ensures Sentences([Piece(raw, cause)]) == if TrimLeading(raw) == "" then [] else [TrimLeading(raw)]
    {
      assert [Piece(raw, cause)][..0] == [];
    }

    method LastWordIsAbbreviation() returns (b: bool)
      ensures b == EndsWithAbbreviation(buf)
    {
      if |buf| < 2 || buf[|buf| - 1] != '.' {
        return false;
      }
      var end := |buf| - 1;
      var i := end;
      while i > 0 && IsAbbreviationChar(buf[i - 1])
        invariant 0 <= i <= end
        invariant forall k | i <= k < end :: IsAbbreviationChar(buf[k])
      {
        i := i - 1;
      }
      ghost var t := buf[..end];
      assert LastWordAt(t, i);
      assert forall j | LastWordAt(t, j) :: j == i;
      if i == end {
        return false;
      }
      var word := "";
      for k := i to end
        invariant word == LowerCase(buf[i..k])
      {
        assert buf[i..k + 1] == buf[i..k] + [buf[k]];
        word := word + [ToLower(buf[k])];
      }
      assert t[i..] == buf[i..end];
      b := word in ABBREVIATIONS;
    }

    method BufferEndsWithListMarker() returns (b: bool)
      ensures b == EndsWithListMarker(buf)
    {
      if |buf| < 2 || buf[|buf| - 1] != '.' {
        return false;
      }
      var end := |buf| - 1;
      var i := end;
      while i > 0 && IsMarkerChar(buf[i - 1])
        invariant 0 <= i <= end
        invariant forall k | i <= k < end :: IsMarkerChar(buf[k])
      {
        i := i - 1;
      }
      ghost var t := buf[..end];
      assert LastMarkerAt(t, i);
      assert forall j | LastMarkerAt(t, j) :: j == i;
      if i == end {
        return false;
      }
      var len := end - i;
      if len < 1 || len > 3 {
        return false;
      }
      if i > 0 && !IsWhitespace(buf[i - 1]) {
        return false;
      }
      return true;
    }
  }
}
