/**
 Where the splitter cuts, said of the text alone: neither a pending position, nor a dot
 count, nor a length counter occurs in these definitions. The theorems show that the
 splitter cuts at exactly those places, and what that leaves of the rule in its header.
 */
module SplittingExact {
  import opened Wrappers
  import opened Splitting
  import opened SplittingTheorems

  // ----- the places, in terms of the text since the last cut -----

  /** How many dots `t` ends with. */
  function DotRun(t: string): (n: nat)
    ensures n <= |t|
  {
    if t != "" && t[|t| - 1] == '.' then DotRun(t[..|t| - 1]) + 1 else 0
  }

  /** The last dot of `t` is an abbreviation's or a list marker's. */
  ghost predicate Ignored(t: string) {
    EndsWithAbbreviation(t) || EndsWithListMarker(t)
  }

  /** The dots at the end of `t` that count: all of them, or all but a first one that is ignored. */
  ghost function Counting(t: string): (n: nat)
    ensures n <= |t|
  {
    var n := DotRun(t);
    if n > 0 && Ignored(t[..|t| - n + 1]) then n - 1 else n
  }

  /** The last byte of `t` only ends an ellipsis: it is not looked at any further. */
  ghost predicate EndsEllipsis(t: string) {
    t != "" && t[|t| - 1] != '.' && Counting(t[..|t| - 1]) >= 2
  }

  /** Two bytes decide: the last of `t` is a terminator that stands alone, and `c` confirms it. */
  ghost predicate Confirmed(cfg: Config, t: string, c: char) {
    t != "" && !FenceOpen(cfg, t) && !IsDigit(c) &&
    var last := t[|t| - 1];
    if last == '.' then c != '.' && Counting(t) == 1
    else IsTerminator(last) && !EndsEllipsis(t)
  }

  /** The length of `t` as the splitter measures it: without the terminators it has looked at. */
  ghost function Measured(cfg: Config, t: string): nat {
    if t == "" then 0
    else
      var looked := IsTerminator(t[|t| - 1]) && !FenceOpen(cfg, t) && !EndsEllipsis(t);
      Measured(cfg, t[..|t| - 1]) + if looked then 0 else 1
  }

  /** `t` ends at a blank or a comma outside a fence and is too long; `extra` is 1 behind a terminator cut. */
  ghost predicate TooLong(cfg: Config, extra: nat, t: string) {
    t != "" && !FenceOpen(cfg, t) && !EndsEllipsis(t) &&
    (IsWhitespace(t[|t| - 1]) || t[|t| - 1] == ',') && extra + Measured(cfg, t) >= cfg.maxSentenceChars
  }

  /** Where the sentence that is being read starts in a text, and whether it follows a terminator cut. */
  datatype Place = Place(start: nat, extra: nat)

  ghost function PlaceBefore(cfg: Config, front: string, c: char): (p: Place)
    ensures p.start <= |front|
    decreases |front|, 1
  {
    var p := PlaceAfter(cfg, front);
    if Confirmed(cfg, front[p.start..], c) then Place(|front|, 1) else p
  }

  ghost function PlaceAfter(cfg: Config, text: string): (p: Place)
    ensures p.start <= |text|
    decreases |text|, 0
  {
    if text == "" then Place(0, 0)
    else
      var p := PlaceBefore(cfg, text[..|text| - 1], text[|text| - 1]);
      if TooLong(cfg, p.extra, text[p.start..]) then Place(|text|, 0) else p
  }

  /** The terminator at j is a place to cut. */
  ghost predicate TerminatorPlace(cfg: Config, text: string, j: nat) {
    j + 1 < |text| && Confirmed(cfg, text[PlaceAfter(cfg, text[..j + 1]).start..j + 1], text[j + 1])
  }

  /** The blank or comma at j is a place to cut. */
  ghost predicate ForcedPlace(cfg: Config, text: string, j: nat) {
    j < |text| &&
    var p := PlaceBefore(cfg, text[..j], text[j]);
    TooLong(cfg, p.extra, text[p.start..j + 1])
  }

  // ----- the splitter's fields, read from the text since the last cut -----

  ghost function PendingIn(cfg: Config, t: string): Option<nat> {
    if t == "" || FenceOpen(cfg, t) || !IsTerminator(t[|t| - 1]) || EndsEllipsis(t) then None
    else if t[|t| - 1] != '.' then Some(|t| - 1)
    else if Counting(t) == 0 then None
    else Some(|t| - Counting(t))
  }

  ghost predicate Fits(cfg: Config, extra: nat, s: State) {
    && (s.mode == InCodeFence <==> FenceOpen(cfg, s.buf))
    && s.pending == PendingIn(cfg, s.buf)
    && (s.pending.Some? ==> s.dotRun == if s.buf[|s.buf| - 1] == '.' then Counting(s.buf) else 0)
    && s.counter == extra + Measured(cfg, s.buf)
  }

  // ----- one more byte -----

  lemma DotRunGrows(t: string, c: char)
    ensures DotRun(t + [c]) == if c == '.' then DotRun(t) + 1 else 0
  {
    assert (t + [c])[..|t|] == t;
  }

  lemma {:induction false} DotRunIsDots(t: string)
    ensures forall k | |t| - DotRun(t) <= k < |t| :: t[k] == '.'
    ensures DotRun(t) < |t| ==> t[|t| - DotRun(t) - 1] != '.'
  {
    if t != "" && t[|t| - 1] == '.' {
      DotRunIsDots(t[..|t| - 1]);
    }
  }

  /** A dot adds one to the count, unless it is a first dot that is ignored. */
  lemma CountingGrows(t: string)
    ensures Counting(t + ['.']) == if DotRun(t) == 0 && Ignored(t + ['.']) then 0 else Counting(t) + 1
  {
    hide Ignored, DotRun;
    DotRunGrows(t, '.');
    var n := DotRun(t);
    if n > 0 {
      assert (t + ['.'])[..|t| + 1 - (n + 1) + 1] == t[..|t| - n + 1];
    } else {
      assert (t + ['.'])[..|t| + 1] == t + ['.'];
    }
  }

  lemma DottedIsLookedAt(t: string)
    requires DotRun(t) > 0
    ensures !Ignored(t + ['.'])
  {
    var u := t + ['.'];
    assert u[|u| - 1] == '.' && u[|u| - 2] == t[|t| - 1];
    SecondDotCounts(u);
  }

  /** An ignored dot is the first of its run. */
  lemma IgnoredIsFirst(t: string, c: char)
    requires Ignored(t + [c])
    ensures c == '.' && DotRun(t) == 0
  {
    if DotRun(t) > 0 {
      DottedIsLookedAt(t);
    }
  }

  lemma CountingOfOther(t: string)
    requires t == "" || t[|t| - 1] != '.'
    ensures DotRun(t) == 0 && Counting(t) == 0
  {
  }

  lemma EndsEllipsisGrows(t: string, c: char)
    ensures EndsEllipsis(t + [c]) <==> c != '.' && Counting(t) >= 2
  {
    assert (t + [c])[..|t|] == t;
  }

  lemma MeasuredGrows(cfg: Config, t: string, c: char)
    ensures Measured(cfg, t + [c]) == Measured(cfg, t)
      + if IsTerminator(c) && !FenceOpen(cfg, t + [c]) && !EndsEllipsis(t + [c]) then 0 else 1
  {
    assert (t + [c])[..|t|] == t;
  }

  /** A byte that is looked at, behind text `t` that leaves nothing pending. */
  ghost predicate Lookable(cfg: Config, extra: nat, t: string, c: char, s: State) {
    && s.buf == t + [c] && s.mode == Normal && s.pending.None?
    && !FenceOpen(cfg, s.buf) && Counting(t) == 0 && s.counter == extra + Measured(cfg, t)
  }

  lemma LookedAtTerminator(cfg: Config, extra: nat, t: string, c: char, s: State)
    requires Lookable(cfg, extra, t, c, s) && IsTerminator(c)
    ensures Examine(cfg, s, c).1 == [] && Examine(cfg, s, c).0.buf == s.buf
    ensures Fits(cfg, extra, Examine(cfg, s, c).0)
  {
    hide EndsWithAbbreviation, EndsWithListMarker, FenceOpen, Measured;
    EndsEllipsisGrows(t, c);
    MeasuredGrows(cfg, t, c);
    if c == '.' {
      CountingGrows(t);
    }
    if Ignored(s.buf) {
      IgnoredIsFirst(t, c);
    } else {
      NoEllipsis(t, c);
    }
  }

  lemma ThreeDots(t: string, c: char)
    requires EndsWithDots(t + [c], 3)
    ensures DotRun(t) >= 2
  {
    var u := t + [c];
    assert u[|u| - 2] == t[|t| - 1] && u[|u| - 3] == t[|t| - 2];
  }

  /** Without a counting dot before it, a terminator does not complete three dots. */
  lemma NoEllipsis(t: string, c: char)
    requires Counting(t) == 0 && IsTerminator(c)
    ensures !EndsWithEllipsis(t + [c])
  {
    if EndsWithDots(t + [c], 3) {
      ThreeDots(t, c);
    }
  }

  lemma LookedAtOther(cfg: Config, extra: nat, t: string, c: char, s: State)
    requires Lookable(cfg, extra, t, c, s) && !IsTerminator(c)
    ensures TooLong(cfg, extra, s.buf) ==>
      Examine(cfg, s, c) == (State("", Normal, 0, None, 0), [Piece(s.buf, Forced)])
    ensures !TooLong(cfg, extra, s.buf) ==>
      Examine(cfg, s, c).1 == [] && Examine(cfg, s, c).0.buf == s.buf && Fits(cfg, extra, Examine(cfg, s, c).0)
  {
    hide EndsWithAbbreviation, EndsWithListMarker, FenceOpen;
    EndsEllipsisGrows(t, c);
    MeasuredGrows(cfg, t, c);
  }

  lemma EmptyFits(cfg: Config, dotRun: nat)
    ensures Fits(cfg, 0, State("", Normal, 0, None, dotRun))
  {
  }

  // ----- one step, in terms of the text -----

  ghost function CutBefore(cfg: Config, t: string, c: char): seq<Piece> {
    if Confirmed(cfg, t, c) then [Piece(t, Terminator(c))] else []
  }

  ghost function CutBehind(cfg: Config, extra: nat, u: string): seq<Piece> {
    if TooLong(cfg, extra, u) then [Piece(u, Forced)] else []
  }

  /** What one byte must do to a state that fits: cut before it, behind it, both or neither. */
  ghost predicate StepsBy(cfg: Config, extra: nat, s: State, c: char)
    requires PendingInBuffer(s)
  {
    var (s1, ps) := Step(cfg, s, c);
    var u := if Confirmed(cfg, s.buf, c) then [c] else s.buf + [c];
    var extra1 := if Confirmed(cfg, s.buf, c) then 1 else extra;
    && ps == CutBefore(cfg, s.buf, c) + CutBehind(cfg, extra1, u)
    && (if TooLong(cfg, extra1, u) then s1.buf == "" && Fits(cfg, 0, s1) else s1.buf == u && Fits(cfg, extra1, s1))
  }

  /** A fence can only close behind backticks. */
  lemma ClosingByte(cfg: Config, t: string, c: char)
    requires FenceOpen(cfg, t) && !FenceOpen(cfg, t + [c])
    ensures c == '`' && t != "" && t[|t| - 1] == '`'
  {
    FenceGrows(cfg, t, c);
    var u := t + [c];
    assert u[|u| - 1] == c && u[|u| - 2] == t[|t| - 1];
  }

  /** A fence byte never follows a pending terminator. */
  lemma OpeningByte(cfg: Config, t: string, c: char)
    requires !FenceOpen(cfg, t) && FenceOpen(cfg, t + [c])
    ensures c == '`' && t != "" && t[|t| - 1] == '`'
  {
    FenceGrows(cfg, t, c);
    var u := t + [c];
    assert u[|u| - 1] == c && u[|u| - 2] == t[|t| - 1];
  }

  lemma FencedStep(cfg: Config, extra: nat, s: State, c: char)
    requires Fits(cfg, extra, s) && PendingInBuffer(s) && FenceOpen(cfg, s.buf + [c])
    ensures StepsBy(cfg, extra, s, c)
  {
    hide EndsWithAbbreviation, EndsWithListMarker, Settle, Counting;
    if !FenceOpen(cfg, s.buf) {
      OpeningByte(cfg, s.buf, c);
    }
    FenceGrows(cfg, s.buf, c);
    MeasuredGrows(cfg, s.buf, c);
    assert Step(cfg, s, c).1 == [];
  }

  lemma StepSettles(cfg: Config, s: State, c: char)
    requires (s.mode == InCodeFence <==> FenceOpen(cfg, s.buf)) && PendingInBuffer(s) && !FenceOpen(cfg, s.buf + [c])
    ensures Step(cfg, s, c) == Settle(cfg, State(s.buf + [c], Normal, s.counter, s.pending, s.dotRun), c)
  {
    hide Settle;
    FenceGrows(cfg, s.buf, c);
  }

  lemma UnpendedStep(cfg: Config, extra: nat, s: State, c: char)
    requires Fits(cfg, extra, s) && s.pending.None? && !FenceOpen(cfg, s.buf + [c])
    ensures StepsBy(cfg, extra, s, c)
  {
    StepSettles(cfg, s, c);
    NothingPending(cfg, s.buf, c);
    var s1 := State(s.buf + [c], Normal, s.counter, s.pending, s.dotRun);
    assert Settle(cfg, s1, c) == Examine(cfg, s1, c);
    hide Step, Settle, Examine, FenceOpen, Counting, Measured;
    if IsTerminator(c) {
      LookedAtTerminator(cfg, extra, s.buf, c, s1);
      TerminatorIsNotTooLong(cfg, extra, s1.buf);
    } else {
      LookedAtOther(cfg, extra, s.buf, c, s1);
      EmptyFits(cfg, 0);
    }
  }

  lemma NothingPending(cfg: Config, t: string, c: char)
    requires PendingIn(cfg, t).None? && !FenceOpen(cfg, t + [c])
    ensures !Confirmed(cfg, t, c) && Counting(t) == 0
  {
    if FenceOpen(cfg, t) {
      ClosingByte(cfg, t, c);
    }
    if t == "" || t[|t| - 1] != '.' {
      CountingOfOther(t);
    }
  }

  /** A further dot of a run, with one more counting dot. */
  lemma DotStep(cfg: Config, extra: nat, s: State)
    requires Fits(cfg, extra, s) && s.pending.Some? && !FenceOpen(cfg, s.buf + ['.'])
    requires !Confirmed(cfg, s.buf, '.')
    ensures s.buf[s.pending.value] == '.' && StepsBy(cfg, extra, s, '.')
  {
    hide EndsWithAbbreviation, EndsWithListMarker;
    StepSettles(cfg, s, '.');
    EndsEllipsisGrows(s.buf, '.');
    MeasuredGrows(cfg, s.buf, '.');
    PendingByte(cfg, s.buf);
    CountingGrows(s.buf);
    hide Step, Examine, FenceOpen, Counting, Measured, Ignored;
    assert (s.buf + ['.'])[s.pending.value] == s.buf[s.pending.value];
  }

  /** A byte that forgets the pending terminator. */
  lemma ForgottenStep(cfg: Config, extra: nat, s: State, c: char)
    requires Fits(cfg, extra, s) && s.pending.Some? && !FenceOpen(cfg, s.buf + [c])
    requires !Confirmed(cfg, s.buf, c) && c != '.'
    ensures StepsBy(cfg, extra, s, c)
  {
    StepSettles(cfg, s, c);
    EndsEllipsisGrows(s.buf, c);
    MeasuredGrows(cfg, s.buf, c);
    PendingByte(cfg, s.buf);
    hide Step, Examine, FenceOpen, Counting, Measured, Ignored;
    assert Settle(cfg, State(s.buf + [c], Normal, s.counter, s.pending, s.dotRun), c)
        == (State(s.buf + [c], Normal, s.counter + 1, None, 0), []);
  }

  /** The pending byte is the last one, or the first of the dots that count. */
  lemma PendingByte(cfg: Config, t: string)
    requires PendingIn(cfg, t).Some?
    ensures !FenceOpen(cfg, t) && t != "" && IsTerminator(t[|t| - 1]) && !EndsEllipsis(t)
    ensures PendingIn(cfg, t).value < |t|
    ensures t[PendingIn(cfg, t).value] == t[|t| - 1]
    ensures t[|t| - 1] == '.' ==> DotRun(t) > 0 && Counting(t) > 0
  {
    DotRunIsDots(t);
  }

  lemma TerminatorIsNotTooLong(cfg: Config, extra: nat, t: string)
    requires t != "" && IsTerminator(t[|t| - 1])
    ensures !TooLong(cfg, extra, t)
  {
  }

  lemma OneByteIsOutside(cfg: Config, c: char)
    ensures !FenceOpen(cfg, [c])
  {
    OneByteIsExaminable(cfg, c, 0);
  }

  lemma CutStep(cfg: Config, extra: nat, s: State, c: char)
    requires Fits(cfg, extra, s) && s.pending.Some? && !FenceOpen(cfg, s.buf + [c])
    requires Confirmed(cfg, s.buf, c)
    ensures StepsBy(cfg, extra, s, c)
  {
    PendingByte(cfg, s.buf);
    FenceGrows(cfg, s.buf, c);
    CutIsExamined(cfg, s, c);
    FenceGrows(cfg, "", c);
    assert "" + [c] == [c] && Measured(cfg, "") == 0 && Counting("") == 0;
    var s1 := State([c], Normal, 1, None, s.dotRun);
    hide Step, Settle, Examine, Counting, Measured, FenceOpen, EndsWithAbbreviation, EndsWithListMarker, Examinable;
    assert !FenceOpen(cfg, [c]) by {
      OneByteIsOutside(cfg, c);
    }
    if IsTerminator(c) {
      LookedAtTerminator(cfg, 1, "", c, s1);
      TerminatorIsNotTooLong(cfg, 1, [c]);
    } else {
      LookedAtOther(cfg, 1, "", c, s1);
      EmptyFits(cfg, 0);
    }
  }

  lemma StepIsByText(cfg: Config, extra: nat, s: State, c: char)
    requires Fits(cfg, extra, s) && PendingInBuffer(s)
    ensures StepsBy(cfg, extra, s, c)
  {
    hide StepsBy, Fits, Confirmed;
    if FenceOpen(cfg, s.buf + [c]) {
      FencedStep(cfg, extra, s, c);
    } else if s.pending.None? {
      UnpendedStep(cfg, extra, s, c);
    } else if Confirmed(cfg, s.buf, c) {
      CutStep(cfg, extra, s, c);
    } else if c == '.' {
      DotStep(cfg, extra, s);
    } else {
      ForgottenStep(cfg, extra, s, c);
    }
  }

  // ----- the whole stream -----

  /** The buffer is the text from the place that the text determines, and the fields fit it. */
  ghost predicate AtPlace(cfg: Config, text: string, s: State) {
    var p := PlaceAfter(cfg, text);
    s.buf == text[p.start..] && Fits(cfg, p.extra, s)
  }

  lemma StepMovesPlace(cfg: Config, front: string, c: char, s: State)
    requires PendingInBuffer(s) && AtPlace(cfg, front, s)
    ensures AtPlace(cfg, front + [c], Step(cfg, s, c).0)
    ensures var p, q := PlaceAfter(cfg, front), PlaceBefore(cfg, front, c);
      Step(cfg, s, c).1 == CutBefore(cfg, front[p.start..], c) + CutBehind(cfg, q.extra, (front + [c])[q.start..])
  {
    hide Step, Confirmed, TooLong, Fits;
    var text, p := front + [c], PlaceAfter(cfg, front);
    StepIsByText(cfg, p.extra, s, c);
    assert text[..|text| - 1] == front && text[|text| - 1] == c;
    assert text[p.start..] == front[p.start..] + [c] && text[|front|..] == [c] && text[|text|..] == "";
    var q := PlaceBefore(cfg, front, c);
    assert text[q.start..] == if Confirmed(cfg, s.buf, c) then [c] else s.buf + [c];
    assert q.extra == if Confirmed(cfg, s.buf, c) then 1 else p.extra;
    assert PlaceAfter(cfg, text) == if TooLong(cfg, q.extra, text[q.start..]) then Place(|text|, 0) else q;
  }

  /** The text fed so far ends with the buffer, which starts at the place the text determines. */
  lemma {:induction false} BufferIsByText(cfg: Config, text: string)
    ensures AtPlace(cfg, text, Feed(cfg, INITIAL, text).0)
  {
    hide *;
    if text == "" {
      NothingFed(cfg);
    } else {
      var front, c := text[..|text| - 1], text[|text| - 1];
      BufferIsByText(cfg, front);
      OneMoreByte(cfg, front, c);
      assert text == front + [c];
    }
  }

  lemma NothingFed(cfg: Config)
    ensures AtPlace(cfg, "", Feed(cfg, INITIAL, "").0)
  {
    EmptyFits(cfg, 0);
  }

  lemma OneMoreByte(cfg: Config, front: string, c: char)
    requires AtPlace(cfg, front, Feed(cfg, INITIAL, front).0)
    ensures AtPlace(cfg, front + [c], Feed(cfg, INITIAL, front + [c]).0)
  {
    hide AtPlace, Step, Feed, PlaceAfter;
    StepMovesPlace(cfg, front, c, Feed(cfg, INITIAL, front).0);
    FeedLast(cfg, INITIAL, front, c);
  }

  /** The pieces of one more byte, by the text. */
  lemma PiecesAreByText(cfg: Config, front: string, c: char)
    ensures var p, q := PlaceAfter(cfg, front), PlaceBefore(cfg, front, c);
      Feed(cfg, INITIAL, front + [c]).1 == (Feed(cfg, INITIAL, front).1
        + CutBefore(cfg, front[p.start..], c)) + CutBehind(cfg, q.extra, (front + [c])[q.start..])
  {
    hide Step, CutBefore, CutBehind;
    BufferIsByText(cfg, front);
    FeedLast(cfg, INITIAL, front, c);
    StepMovesPlace(cfg, front, c, Feed(cfg, INITIAL, front).0);
    var p, q := PlaceAfter(cfg, front), PlaceBefore(cfg, front, c);
    PiecesAssociate(Feed(cfg, INITIAL, front).1, CutBefore(cfg, front[p.start..], c),
                    CutBehind(cfg, q.extra, (front + [c])[q.start..]));
  }

  lemma CutTextIsBeforePlace(cfg: Config, text: string)
    ensures |Flatten(Feed(cfg, INITIAL, text).1)| == PlaceAfter(cfg, text).start
  {
    hide Inv, Step, Fits, CutOk;
    BufferIsByText(cfg, text);
    FeedKeeps(cfg, text);
  }

  /** The k-th piece ends just behind j. */
  ghost predicate EndsAt(ps: seq<Piece>, k: nat, j: nat) {
    k < |ps| && |Flatten(ps[..k + 1])| == j + 1
  }

  /** The pieces are cut at a terminator just behind j. */
  ghost predicate CutAtTerminator(ps: seq<Piece>, j: nat) {
    exists k: nat | EndsAt(ps, k, j) :: ps[k].cause.Terminator?
  }

  ghost predicate CutByLength(ps: seq<Piece>, j: nat) {
    exists k: nat | EndsAt(ps, k, j) :: ps[k].cause == Forced
  }

  lemma EndsAtGrows(ps: seq<Piece>, p: Piece, k: nat, j: nat)
    ensures EndsAt(ps + [p], k, j) <==>
      EndsAt(ps, k, j) || (k == |ps| && |Flatten(ps)| + |p.raw| == j + 1)
  {
    if k < |ps| {
      assert (ps + [p])[..k + 1] == ps[..k + 1];
    } else if k == |ps| {
      assert (ps + [p])[..k + 1] == ps + [p] && (ps + [p])[..k] == ps;
    }
  }

  /** One more piece is one more cut. */
  lemma CutsGrow(ps: seq<Piece>, p: Piece, j: nat)
    ensures CutAtTerminator(ps + [p], j) <==>
      CutAtTerminator(ps, j) || (p.cause.Terminator? && |Flatten(ps)| + |p.raw| == j + 1)
    ensures CutByLength(ps + [p], j) <==>
      CutByLength(ps, j) || (p.cause == Forced && |Flatten(ps)| + |p.raw| == j + 1)
  {
    forall k: nat
      ensures EndsAt(ps + [p], k, j) <==> EndsAt(ps, k, j) || (k == |ps| && |Flatten(ps)| + |p.raw| == j + 1)
    {
      EndsAtGrows(ps, p, k, j);
    }
    assert (ps + [p])[|ps|] == p;
    hide EndsAt;
    if CutAtTerminator(ps, j) {
      var k: nat :| EndsAt(ps, k, j) && ps[k].cause.Terminator?;
      assert EndsAt(ps + [p], k, j) && (ps + [p])[k] == ps[k];
    }
  }

  /**
   The places are exact. For every text and every position: the splitter cuts there at a
   terminator exactly when the text says so, and by length exactly when the text says so.
   */
  lemma {:induction false} CutsAreExact(cfg: Config, text: string, j: nat)
    ensures var ps := Feed(cfg, INITIAL, text).1;
      && (CutAtTerminator(ps, j) <==> TerminatorPlace(cfg, text, j))
      && (CutByLength(ps, j) <==> ForcedPlace(cfg, text, j))
  {
    if text != "" {
      var front, c := text[..|text| - 1], text[|text| - 1];
      assert text == front + [c];
      CutsAreExact(cfg, front, j);
      PlacesGrow(cfg, front, c, j);
      NewCuts(cfg, front, c, j);
    }
  }

  /** The places of one more byte. */
  lemma PlacesGrow(cfg: Config, front: string, c: char, j: nat)
    ensures TerminatorPlace(cfg, front + [c], j) <==>
      (TerminatorPlace(cfg, front, j)
       || (j + 1 == |front| && Confirmed(cfg, front[PlaceAfter(cfg, front).start..], c)))
    ensures var q := PlaceBefore(cfg, front, c);
      ForcedPlace(cfg, front + [c], j) <==>
        (ForcedPlace(cfg, front, j) || (j == |front| && TooLong(cfg, q.extra, (front + [c])[q.start..])))
  {
    hide Confirmed, TooLong;
    var text := front + [c];
    if j + 1 < |front| {
      assert text[..j + 1] == front[..j + 1];
    } else if j + 1 == |front| {
      assert text[..j + 1] == front;
    }
    if j < |front| {
      assert text[..j] == front[..j] && text[..j + 1] == front[..j + 1];
      var p := PlaceBefore(cfg, front[..j], front[j]);
      assert text[p.start..j + 1] == front[p.start..j + 1];
    } else if j == |front| {
      assert text[..j] == front && text[..j + 1] == text;
      var p := PlaceBefore(cfg, front, c);
      assert text[p.start..j + 1] == text[p.start..];
    }
  }

  /** The cuts of one more byte. */
  lemma NewCuts(cfg: Config, front: string, c: char, j: nat)
    ensures var ps, p := Feed(cfg, INITIAL, front).1, PlaceAfter(cfg, front);
      CutAtTerminator(Feed(cfg, INITIAL, front + [c]).1, j) <==>
        (CutAtTerminator(ps, j) || (j + 1 == |front| && Confirmed(cfg, front[p.start..], c)))
    ensures var ps, q := Feed(cfg, INITIAL, front).1, PlaceBefore(cfg, front, c);
      CutByLength(Feed(cfg, INITIAL, front + [c]).1, j) <==>
        (CutByLength(ps, j) || (j == |front| && TooLong(cfg, q.extra, (front + [c])[q.start..])))
  {
    hide Feed, Confirmed, TooLong, CutAtTerminator, CutByLength, PlaceAfter;
    PiecesAreByText(cfg, front, c);
    CutTextIsBeforePlace(cfg, front);
    var ps, p, q := Feed(cfg, INITIAL, front).1, PlaceAfter(cfg, front), PlaceBefore(cfg, front, c);
    var first, second := CutBefore(cfg, front[p.start..], c), CutBehind(cfg, q.extra, (front + [c])[q.start..]);
    SomeCutsGrow(ps, first, j);
    SomeCutsGrow(ps + first, second, j);
    FlattenConcat(ps, first);
    FlattenAtMostOne(first);
  }

  lemma FlattenAtMostOne(ps: seq<Piece>)
    requires |ps| <= 1
    ensures Flatten(ps) == if ps == [] then "" else ps[0].raw
  {
    if ps != [] {
      FlattenOne(ps[0]);
      assert ps == [ps[0]];
    }
  }

  lemma SomeCutsGrow(ps: seq<Piece>, more: seq<Piece>, j: nat)
    requires |more| <= 1
    ensures CutAtTerminator(ps + more, j) <==>
      CutAtTerminator(ps, j) || (more != [] && more[0].cause.Terminator? && |Flatten(ps)| + |more[0].raw| == j + 1)
    ensures CutByLength(ps + more, j) <==>
      CutByLength(ps, j) || (more != [] && more[0].cause == Forced && |Flatten(ps)| + |more[0].raw| == j + 1)
  {
    if more == [] {
      assert ps + more == ps;
    } else {
      assert more == [more[0]];
      CutsGrow(ps, more[0], j);
    }
  }

  // ----- the rule in the header -----

  /** A cut at j obeys the header: blank space and a capital letter follow. */
  predicate HeaderRule(text: string, j: nat) {
    j + 2 < |text| && IsWhitespace(text[j + 1]) && IsUpper(text[j + 2])
  }

  /**
   When the header's rule is kept: exactly for the texts in which blank space and a capital
   letter follow every lone, confirmed terminator.
   */
  lemma HeaderRuleIsKeptExactlyWhen(cfg: Config, text: string)
    ensures (forall j: nat | CutAtTerminator(Feed(cfg, INITIAL, text).1, j) :: HeaderRule(text, j))
       <==> (forall j: nat | TerminatorPlace(cfg, text, j) :: HeaderRule(text, j))
  {
    forall j: nat
      ensures CutAtTerminator(Feed(cfg, INITIAL, text).1, j) <==> TerminatorPlace(cfg, text, j)
    {
      CutsAreExact(cfg, text, j);
    }
    hide Feed, CutAtTerminator, TerminatorPlace;
  }

  /** The converse: a place with blank space and a capital behind it is cut only if it is such a terminator. */
  lemma HeaderPlaceIsCutExactlyWhen(cfg: Config, text: string, j: nat)
    requires HeaderRule(text, j)
    ensures CutAtTerminator(Feed(cfg, INITIAL, text).1, j) <==>
      var t := text[PlaceAfter(cfg, text[..j + 1]).start..j + 1];
      && t != "" && !FenceOpen(cfg, t)
      && if text[j] == '.' then Counting(t) == 1 else IsTerminator(text[j]) && !EndsEllipsis(t)
  {
    CutsAreExact(cfg, text, j);
    var t := text[PlaceAfter(cfg, text[..j + 1]).start..j + 1];
    assert t != "" ==> t[|t| - 1] == text[j];
  }

  /** The rule is not kept: "!a" is cut behind the "!", with neither a blank nor a capital there. */
  lemma HeaderRuleIsNotKept(cfg: Config)
    requires cfg.maxSentenceChars > 2
    ensures CutAtTerminator(Feed(cfg, INITIAL, "!a").1, 0) && !HeaderRule("!a", 0)
  {
    BangIsFed(cfg);
    var p := Piece("!", Terminator('a'));
    assert [p][..1] == [p];
    FlattenOne(p);
    assert EndsAt([p], 0, 0);
  }
}
