/**
 What the sentence splitter promises about a whole stream: nothing is lost, every cut
 has a reason and lies outside fences, and the way the stream is chopped into tokens
 makes no difference. SentenceSplitterExact says exactly where the cuts are.
 */
module SplittingTheorems {
  import opened Wrappers
  import opened Splitting

  // ----- what the cuts must look like, in terms of the text alone -----

  /** Whether a code fence is open after `t`: every "```" window flips it. */
  ghost predicate FenceOpen(cfg: Config, t: string) {
    t != "" && (FenceOpen(cfg, t[..|t| - 1]) != (cfg.detectCodeFences && EndsWithFence(t)))
  }

  ghost predicate TerminatorCutOk(raw: string, next: char)
    requires raw != ""
  {
    var last := raw[|raw| - 1];
    && IsTerminator(last)
    && !EndsWithAbbreviation(raw) && !EndsWithListMarker(raw) && !EndsWithEllipsis(raw)
    && !IsDigit(next) && !(last == '.' && next == '.')
  }

  ghost predicate ForcedCutOk(cfg: Config, raw: string)
    requires raw != ""
  {
    var last := raw[|raw| - 1];
    (IsWhitespace(last) || last == ',') && |raw| + 1 >= cfg.maxSentenceChars
  }

  /** The reason for a cut, stated on the text that was cut off. */
  ghost predicate CutOk(cfg: Config, p: Piece) {
    && p.raw != ""
    && !FenceOpen(cfg, p.raw)
    && match p.cause
       case Terminator(next) => TerminatorCutOk(p.raw, next)
       case Forced => ForcedCutOk(cfg, p.raw)
       case EndOfStream => false
  }

  ghost predicate AllCutsOk(cfg: Config, ps: seq<Piece>) {
    forall k | 0 <= k < |ps| :: CutOk(cfg, ps[k])
  }

  /** A piece cut at a terminator is followed by the byte that confirmed the cut. */
  ghost predicate Chained(ps: seq<Piece>, rest: string) {
    forall k: nat | k < |ps| :: ChainedAt(ps, rest, k)
  }

  ghost predicate ChainedAt(ps: seq<Piece>, rest: string, k: nat)
    requires k < |ps|
  {
    ps[k].cause.Terminator? ==> StartsWith(ps[k + 1..], rest, ps[k].cause.next)
  }

  /** The first byte of what follows a cut: of the next piece, or else of the buffer. */
  ghost predicate StartsWith(ps: seq<Piece>, rest: string, c: char) {
    var following := if ps == [] then rest else ps[0].raw;
    following != "" && following[0] == c
  }

  // ----- what the splitter's fields say between bytes -----

  ghost predicate PendingShape(s: State) {
    match s.pending
    case None => s.mode == Normal ==> !EndsWithDots(s.buf, 2)
    case Some(p) =>
      && s.mode == Normal
      && |s.buf| == p + (if s.dotRun < 1 then 1 else s.dotRun)
      && IsTerminator(s.buf[p])
      && (s.dotRun >= 1 <==> s.buf[p] == '.')
      && (forall k | p <= k < |s.buf| :: k == p || s.buf[k] == '.')
      && !EndsWithAbbreviation(s.buf[..p + 1]) && !EndsWithListMarker(s.buf[..p + 1])
      && !EndsWithDots(s.buf[..p + 1], 3)
  }

  ghost predicate CounterShape(s: State) {
    s.counter <= |s.buf| + 1
  }

  ghost predicate Inv(cfg: Config, s: State) {
    && (s.mode == InCodeFence <==> FenceOpen(cfg, s.buf))
    && PendingShape(s)
    && CounterShape(s)
  }

  // ----- one byte keeps all of it -----

  lemma NoAbbreviationEndsInDot(w: string)
    requires w in ABBREVIATIONS
    ensures w != "" && w[|w| - 1] != '.'
  {
  }

  /** A dot right after a dot is never an abbreviation's or a list marker's. */
  lemma SecondDotCounts(s: string)
    requires EndsWithDots(s, 2)
    ensures !EndsWithAbbreviation(s) && !EndsWithListMarker(s)
  {
    var t := s[..|s| - 1];
    assert t[|t| - 1] == '.';
    forall i | LastWordAt(t, i) && i < |t|
      ensures LowerCase(t[i..]) !in ABBREVIATIONS
    {
      if LowerCase(t[i..]) in ABBREVIATIONS {
        NoAbbreviationEndsInDot(LowerCase(t[i..]));
      }
    }
    forall i | LastMarkerAt(t, i)
      ensures i == |t|
    {
      assert !IsMarkerChar(t[|t| - 1]);
    }
  }

  lemma FenceGrows(cfg: Config, t: string, c: char)
    ensures FenceOpen(cfg, t + [c]) == (FenceOpen(cfg, t) != (cfg.detectCodeFences && EndsWithFence(t + [c])))
  {
    assert (t + [c])[..|t|] == t;
  }

  /** What holds of the buffer just before its last byte is examined. */
  ghost predicate Examinable(cfg: Config, s: State, c: char) {
    && s.buf != "" && s.buf[|s.buf| - 1] == c
    && s.mode == Normal && s.pending.None?
    && !FenceOpen(cfg, s.buf)
    && !EndsWithDots(s.buf[..|s.buf| - 1], 2)
    && s.counter <= |s.buf|
  }

  /** A terminator that is ignored. */
  lemma IgnoredKeepsInv(cfg: Config, s: State, c: char)
    requires Examinable(cfg, s, c) && IsTerminator(c)
    requires EndsWithAbbreviation(s.buf) || EndsWithListMarker(s.buf)
    ensures Inv(cfg, s.(dotRun := 0))
  {
    hide EndsWithAbbreviation, EndsWithListMarker;
    if EndsWithDots(s.buf, 2) {
      SecondDotCounts(s.buf);
    }
  }

  /** A terminator that is deferred. */
  lemma DeferredKeepsInv(cfg: Config, s: State, c: char)
    requires Examinable(cfg, s, c) && IsTerminator(c)
    requires !EndsWithAbbreviation(s.buf) && !EndsWithListMarker(s.buf)
    ensures Inv(cfg, s.(pending := Some(|s.buf| - 1), dotRun := if c == '.' then 1 else 0))
    ensures !EndsWithEllipsis(s.buf)
  {
    assert s.buf[..|s.buf|] == s.buf;
    NoThirdDot(s, c);
  }

  lemma NoThirdDot(s: State, c: char)
    requires s.buf != "" && s.buf[|s.buf| - 1] == c && IsTerminator(c)
    requires !EndsWithDots(s.buf[..|s.buf| - 1], 2)
    ensures !EndsWithDots(s.buf, 3) && !EndsWithEllipsis(s.buf)
  {
  }

  /** A byte that is only counted. */
  lemma CountedKeepsInv(cfg: Config, s: State, c: char)
    requires Examinable(cfg, s, c) && !IsTerminator(c)
    ensures Inv(cfg, s.(counter := s.counter + 1))
  {
    assert !EndsWithDots(s.buf, 2);
  }

  lemma EmptyKeepsInv(cfg: Config)
    ensures Inv(cfg, State("", Normal, 0, None, 0))
  {
  }

  lemma ExamineKeepsInv(cfg: Config, s: State, c: char)
    requires Examinable(cfg, s, c)
    ensures Inv(cfg, Examine(cfg, s, c).0)
    ensures AllCutsOk(cfg, Examine(cfg, s, c).1)
  {
    hide Inv, CutOk;
    if IsTerminator(c) {
      if EndsWithAbbreviation(s.buf) || EndsWithListMarker(s.buf) {
        IgnoredKeepsInv(cfg, s, c);
      } else {
        DeferredKeepsInv(cfg, s, c);
      }
    } else if s.counter + 1 >= cfg.maxSentenceChars && (IsWhitespace(c) || c == ',') {
      EmptyKeepsInv(cfg);
      ForcedIsOk(cfg, s, c);
    } else {
      CountedKeepsInv(cfg, s, c);
    }
  }

  lemma ForcedIsOk(cfg: Config, s: State, c: char)
    requires Examinable(cfg, s, c) && (IsWhitespace(c) || c == ',') && s.counter + 1 >= cfg.maxSentenceChars
    ensures CutOk(cfg, Piece(s.buf, Forced))
  {
  }

  /** Inside a fence, and on the backtick that opens or closes one. */
  lemma FenceByteKeepsInv(cfg: Config, s: State, c: char)
    requires Inv(cfg, s) && PendingInBuffer(s)
    requires (cfg.detectCodeFences && EndsWithFence(s.buf + [c])) || s.mode == InCodeFence
    ensures Inv(cfg, Step(cfg, s, c).0) && Step(cfg, s, c).1 == []
  {
    FenceGrows(cfg, s.buf, c);
  }

  /** A run of dots goes on. */
  lemma DotRunKeepsInv(cfg: Config, s: State)
    requires Inv(cfg, s) && s.pending.Some? && s.mode == Normal && s.buf[s.pending.value] == '.'
    ensures Inv(cfg, Step(cfg, s, '.').0) && Step(cfg, s, '.').1 == []
  {
    FenceGrows(cfg, s.buf, '.');
    var p := s.pending.value;
    assert (s.buf + ['.'])[..p + 1] == s.buf[..p + 1];
  }

  function Forgotten(s: State, c: char): State {
    State(s.buf + [c], Normal, s.counter + 1, None, 0)
  }

  lemma ForgottenShape(cfg: Config, s: State, c: char)
    requires PendingShape(s) && s.pending.Some?
    requires IsDigit(c) || (s.dotRun >= 2 && c != '.')
    ensures PendingShape(Forgotten(s, c))
  {
    var t := s.buf + [c];
    assert t[..|t| - 1] == s.buf && t[|t| - 1] != '.';
    assert s.dotRun >= 2 ==> EndsWithDots(s.buf, 2);
  }

  /** A digit, or whatever ends an ellipsis, forgets the pending terminator. */
  lemma ForgetKeepsInv(cfg: Config, s: State, c: char)
    requires Inv(cfg, s) && s.pending.Some?
    requires !(cfg.detectCodeFences && EndsWithFence(s.buf + [c]))
    requires IsDigit(c) || (s.dotRun >= 2 && c != '.')
    ensures Inv(cfg, Step(cfg, s, c).0) && Step(cfg, s, c).1 == []
  {
    var n := Forgotten(s, c);
    assert Step(cfg, s, c) == (n, []);
    FenceGrows(cfg, s.buf, c);
    ForgottenShape(cfg, s, c);
  }

  /** A cut leaves just the byte that confirmed it, which is then examined. */
  lemma CutIsExamined(cfg: Config, s: State, c: char)
    requires s.pending.Some? && s.mode == Normal && |s.buf| == s.pending.value + 1
    requires !(cfg.detectCodeFences && EndsWithFence(s.buf + [c]))
    requires !(c == '.' && s.buf[s.pending.value] == '.') && !IsDigit(c) && s.dotRun < 2
    ensures var (s1, ps) := Examine(cfg, State([c], Normal, 1, None, s.dotRun), c);
      Step(cfg, s, c) == (s1, [Piece(s.buf, Terminator(c))] + ps)
  {
    hide Examine;
    var p := s.pending.value;
    assert (s.buf + [c])[..p + 1] == s.buf;
    assert (s.buf + [c])[p + 1..] == [c];
  }

  lemma OneByteIsExaminable(cfg: Config, c: char, dotRun: nat)
    ensures Examinable(cfg, State([c], Normal, 1, None, dotRun), c)
  {
    assert [c][..0] == "";
    FenceGrows(cfg, "", c);
    assert "" + [c] == [c];
  }

  lemma PendingIsCutOk(cfg: Config, s: State, c: char)
    requires Inv(cfg, s) && s.pending.Some? && s.mode == Normal
    requires !(c == '.' && s.buf[s.pending.value] == '.') && !IsDigit(c) && s.dotRun < 2
    ensures CutOk(cfg, Piece(s.buf, Terminator(c)))
  {
    assert s.buf[..s.pending.value + 1] == s.buf;
  }

  lemma CutKeepsInv(cfg: Config, s: State, c: char)
    requires Inv(cfg, s) && s.pending.Some? && s.mode == Normal
    requires !(cfg.detectCodeFences && EndsWithFence(s.buf + [c]))
    requires !(c == '.' && s.buf[s.pending.value] == '.') && !IsDigit(c) && s.dotRun < 2
    ensures Inv(cfg, Step(cfg, s, c).0)
    ensures AllCutsOk(cfg, Step(cfg, s, c).1)
  {
    hide Step, Examine, CutOk, Examinable;
    CutIsExamined(cfg, s, c);
    PendingIsCutOk(cfg, s, c);
    OneByteIsExaminable(cfg, c, s.dotRun);
    ExamineKeepsInv(cfg, State([c], Normal, 1, None, s.dotRun), c);
  }

  lemma PlainKeepsInv(cfg: Config, s: State, c: char)
    requires Inv(cfg, s) && s.pending.None? && s.mode == Normal
    requires !(cfg.detectCodeFences && EndsWithFence(s.buf + [c]))
    ensures Inv(cfg, Step(cfg, s, c).0)
    ensures AllCutsOk(cfg, Step(cfg, s, c).1)
  {
    hide Examine, CutOk;
    FenceGrows(cfg, s.buf, c);
    assert (s.buf + [c])[..|s.buf|] == s.buf;
    ExamineKeepsInv(cfg, s.(buf := s.buf + [c]), c);
  }

  lemma StepKeepsInv(cfg: Config, s: State, c: char)
    requires Inv(cfg, s) && PendingInBuffer(s)
    ensures Inv(cfg, Step(cfg, s, c).0)
    ensures AllCutsOk(cfg, Step(cfg, s, c).1)
  {
    hide Step, CutOk, EndsWithFence, IsDigit, FenceOpen, CounterShape;
    if (cfg.detectCodeFences && EndsWithFence(s.buf + [c])) || s.mode == InCodeFence {
      FenceByteKeepsInv(cfg, s, c);
    } else if s.pending.None? {
      PlainKeepsInv(cfg, s, c);
    } else if c == '.' && s.buf[s.pending.value] == '.' {
      DotRunKeepsInv(cfg, s);
    } else if IsDigit(c) || s.dotRun >= 2 {
      ForgetKeepsInv(cfg, s, c);
    } else {
      CutKeepsInv(cfg, s, c);
    }
  }

  /** The last dots of a run never reach the ellipsis test: that branch of the program is dead. */
  lemma EllipsisBranchIsDead(cfg: Config, s: State, c: char)
    requires Inv(cfg, s) && s.mode == Normal && s.pending.None? && IsTerminator(c)
    ensures !EndsWithEllipsis(s.buf + [c])
  {
    assert (s.buf + [c])[|s.buf|] == c;
    if EndsWithDots(s.buf + [c], 3) {
      assert forall k | |s.buf| - 2 <= k < |s.buf| :: (s.buf + [c])[k] == s.buf[k];
      assert EndsWithDots(s.buf, 2);
    }
  }

  // ----- whole streams -----

  lemma FlattenConcat(ps: seq<Piece>, qs: seq<Piece>)
    ensures Flatten(ps + qs) == Flatten(ps) + Flatten(qs)
  {
    if qs == [] {
      assert ps + qs == ps;
    } else {
      assert (ps + qs)[..|ps + qs| - 1] == ps + qs[..|qs| - 1];
      FlattenConcat(ps, qs[..|qs| - 1]);
    }
  }

  lemma FlattenOne(p: Piece)
    ensures Flatten([p]) == p.raw
  {
    assert [p][..0] == [];
    assert Flatten([p][..0]) == "";
  }

  lemma ExamineConserves(cfg: Config, s: State, c: char)
    requires s.buf != "" && s.pending.None?
    ensures Flatten(Examine(cfg, s, c).1) + Examine(cfg, s, c).0.buf == s.buf
  {
    FlattenOne(Piece(s.buf, Forced));
  }

  lemma SettleConserves(cfg: Config, s: State, c: char)
    requires s.buf != "" && (s.pending.Some? ==> s.pending.value < |s.buf| - 1)
    ensures Flatten(Settle(cfg, s, c).1) + Settle(cfg, s, c).0.buf == s.buf
  {
    if s.pending.None? {
      ExamineConserves(cfg, s, c);
    } else if (c == '.' && s.buf[s.pending.value] == '.') || IsDigit(c) || s.dotRun >= 2 {
    } else {
      CutConserves(s.buf, s.pending.value + 1, c, AfterCut(s), Examine(cfg, AfterCut(s), c).1);
      ExamineConserves(cfg, AfterCut(s), c);
    }
  }

  lemma CutConserves(buf: string, n: nat, c: char, rest: State, ps: seq<Piece>)
    requires n <= |buf|
    ensures Flatten([Piece(buf[..n], Terminator(c))] + ps) == buf[..n] + Flatten(ps)
    ensures buf[..n] + buf[n..] == buf
  {
    FlattenOne(Piece(buf[..n], Terminator(c)));
    FlattenConcat([Piece(buf[..n], Terminator(c))], ps);
  }

  lemma StepConserves(cfg: Config, s: State, c: char)
    requires PendingInBuffer(s)
    ensures Flatten(Step(cfg, s, c).1) + Step(cfg, s, c).0.buf == s.buf + [c]
  {
    SettleConserves(cfg, State(s.buf + [c], Normal, s.counter, s.pending, s.dotRun), c);
  }

  lemma ChainedGrows(ps: seq<Piece>, before: string, qs: seq<Piece>, rest: string)
    requires Chained(ps, before) && Chained(qs, rest)
    requires before != "" ==> StartsWith(qs, rest, before[0])
    ensures Chained(ps + qs, rest)
  {
    forall k: nat | k < |ps + qs| ensures ChainedAt(ps + qs, rest, k) {
      if k < |ps| {
        assert ChainedAt(ps, before, k);
        assert (ps + qs)[k + 1..] == ps[k + 1..] + qs;
      } else {
        assert ChainedAt(qs, rest, k - |ps|);
        assert (ps + qs)[k + 1..] == qs[k - |ps| + 1..];
      }
    }
  }

  lemma SettleChains(cfg: Config, s: State, c: char)
    requires s.buf != "" && s.buf[|s.buf| - 1] == c && PendingInBuffer(s)
    requires s.pending.Some? ==> s.pending.value < |s.buf| - 1 && (s.dotRun < 2 ==> s.pending.value == |s.buf| - 2)
    ensures Chained(Settle(cfg, s, c).1, Settle(cfg, s, c).0.buf)
    ensures StartsWith(Settle(cfg, s, c).1, Settle(cfg, s, c).0.buf, s.buf[0])
  {
    if s.pending.Some? {
      assert s.dotRun < 2 ==> s.buf[s.pending.value + 1..] == [c];
    }
  }

  lemma StepChains(cfg: Config, s: State, c: char)
    requires PendingShape(s) && PendingInBuffer(s)
    ensures Chained(Step(cfg, s, c).1, Step(cfg, s, c).0.buf)
    ensures s.buf != "" ==> StartsWith(Step(cfg, s, c).1, Step(cfg, s, c).0.buf, s.buf[0])
  {
    SettleChains(cfg, State(s.buf + [c], Normal, s.counter, s.pending, s.dotRun), c);
  }

  ghost predicate Conserved(text: string, s: State, ps: seq<Piece>) {
    Chained(ps, s.buf) && Flatten(ps) + s.buf == text
  }

  lemma ConservedGrows(text: string, s: State, ps: seq<Piece>, c: char, s': State, qs: seq<Piece>)
    requires Conserved(text, s, ps) && Chained(qs, s'.buf)
    requires s.buf != "" ==> StartsWith(qs, s'.buf, s.buf[0])
    requires Flatten(qs) + s'.buf == s.buf + [c]
    ensures Conserved(text + [c], s', ps + qs)
  {
    ChainedGrows(ps, s.buf, qs, s'.buf);
    FlattenConcat(ps, qs);
    Regroup(Flatten(ps), Flatten(qs), s'.buf, s.buf, [c]);
  }

  lemma Regroup(a: string, b: string, b': string, x: string, y: string)
    requires b + b' == x + y
    ensures (a + b) + b' == (a + x) + y
  {
    assert (a + b) + b' == a + (b + b');
  }

  ghost predicate Kept(cfg: Config, text: string, s: State, ps: seq<Piece>) {
    Inv(cfg, s) && PendingInBuffer(s) && AllCutsOk(cfg, ps) && Conserved(text, s, ps)
  }

  lemma StepKeeps(cfg: Config, text: string, s: State, ps: seq<Piece>, c: char)
    requires Kept(cfg, text, s, ps)
    ensures Kept(cfg, text + [c], Step(cfg, s, c).0, ps + Step(cfg, s, c).1)
  {
    StepKeepsInv(cfg, s, c);
    StepConserves(cfg, s, c);
    StepChains(cfg, s, c);
    ConservedGrows(text, s, ps, c, Step(cfg, s, c).0, Step(cfg, s, c).1);
  }

  /** Everything the splitter keeps, for every text it can be fed. */
  lemma {:induction false} FeedKeeps(cfg: Config, text: string)
    ensures Kept(cfg, text, Feed(cfg, INITIAL, text).0, Feed(cfg, INITIAL, text).1)
  {
    if text != "" {
      var t, c := text[..|text| - 1], text[|text| - 1];
      FeedKeeps(cfg, t);
      assert t + [c] == text;
      StepKeeps(cfg, t, Feed(cfg, INITIAL, t).0, Feed(cfg, INITIAL, t).1, c);
    }
  }

  lemma FeedLast(cfg: Config, s: State, t: string, c: char)
    requires PendingInBuffer(s)
    ensures var (s1, ps) := Feed(cfg, s, t);
      Feed(cfg, s, t + [c]) == (Step(cfg, s1, c).0, ps + Step(cfg, s1, c).1)
  {
    assert (t + [c])[..|t|] == t;
  }

  lemma PiecesAssociate(a: seq<Piece>, b: seq<Piece>, c: seq<Piece>)
    ensures (a + b) + c == a + (b + c)
  {
  }

  /** Chunk independence: feeding `a` then `b` is feeding `a + b`. */
  lemma {:induction false} FeedConcat(cfg: Config, s: State, a: string, b: string)
    requires PendingInBuffer(s)
    ensures var (s1, ps) := Feed(cfg, s, a);
      var (s2, qs) := Feed(cfg, s1, b);
      Feed(cfg, s, a + b) == (s2, ps + qs)
  {
    hide Step;
    if b == "" {
      assert a + b == a && Feed(cfg, s, a).1 + [] == Feed(cfg, s, a).1;
    } else {
      var b' := b[..|b| - 1];
      assert (a + b)[..|a + b| - 1] == a + b';
      FeedConcat(cfg, s, a, b');
      var (s1, ps) := Feed(cfg, s, a);
      var (s2, qs) := Feed(cfg, s1, b');
      FeedLast(cfg, s1, b', b[|b| - 1]);
      FeedLast(cfg, s, a + b', b[|b| - 1]);
      assert b' + [b[|b| - 1]] == b && (a + b') + [b[|b| - 1]] == a + b;
      PiecesAssociate(ps, qs, Step(cfg, s2, b[|b| - 1]).1);
    }
  }

  // ----- conservation -----

  ghost predicate Blank(w: string) {
    forall c | c in w :: IsWhitespace(c)
  }

  /** w0 s0 w1 s1 ... */
  function Weave(ws: seq<string>, ss: seq<string>): string
    requires |ws| == |ss|
  {
    if ss == [] then ""
    else Weave(ws[..|ws| - 1], ss[..|ss| - 1]) + ws[|ws| - 1] + ss[|ss| - 1]
  }

  /** `text` is w0 s0 w1 s1 ... last, where every wi and `last` is blank. */
  ghost predicate WovenWith(text: string, ws: seq<string>, ss: seq<string>, last: string) {
    |ws| == |ss| && (forall w | w in ws :: Blank(w)) && Blank(last) && text == Weave(ws, ss) + last
  }

  /** `text` is the sentences in order, with only blank space between them, then `rest`. */
  ghost predicate Woven(text: string, ss: seq<string>, rest: string) {
    exists before :: text == before + rest && exists ws, last :: WovenWith(before, ws, ss, last)
  }

  /** A sentence the splitter may emit: not empty, not starting with blank space. */
  predicate SentenceShape(t: string) {
    t != "" && !IsWhitespace(t[0])
  }

  lemma TrimSplits(raw: string) returns (w: string)
    ensures Blank(w) && raw == w + TrimLeading(raw)
    ensures TrimLeading(raw) != "" ==> SentenceShape(TrimLeading(raw))
  {
    if raw != "" && IsWhitespace(raw[0]) {
      var v := TrimSplits(raw[1..]);
      w := raw[..1] + v;
      assert raw == raw[..1] + raw[1..];
    } else {
      w := "";
    }
  }

  lemma WeaveOneMore(text: string, ws: seq<string>, ss: seq<string>, last: string, w: string, t: string)
    requires WovenWith(text, ws, ss, last) && Blank(w)
    ensures WovenWith(text + (w + t), ws + [last + w], ss + [t], "")
    ensures WovenWith(text + w, ws, ss, last + w)
  {
    assert (ws + [last + w])[..|ws|] == ws && (ss + [t])[..|ss|] == ss;
  }

  lemma {:induction false} WeavePieces(ps: seq<Piece>) returns (ws: seq<string>, last: string)
    ensures WovenWith(Flatten(ps), ws, Sentences(ps), last)
    ensures forall t | t in Sentences(ps) :: SentenceShape(t)
  {
    if ps == [] {
      ws, last := [], "";
    } else {
      var p := ps[|ps| - 1];
      ws, last := WeavePieces(ps[..|ps| - 1]);
      var w := TrimSplits(p.raw);
      WeaveOneMore(Flatten(ps[..|ps| - 1]), ws, Sentences(ps[..|ps| - 1]), last, w, TrimLeading(p.raw));
      assert Flatten(ps) == Flatten(ps[..|ps| - 1]) + (w + TrimLeading(p.raw));
      if TrimLeading(p.raw) == "" {
        assert p.raw == w && Sentences(ps) == Sentences(ps[..|ps| - 1]);
        last := last + w;
      } else {
        ws, last := ws + [last + w], "";
      }
    }
  }

  lemma PiecesAreWoven(ps: seq<Piece>, rest: string)
    ensures Woven(Flatten(ps) + rest, Sentences(ps), rest)
    ensures forall t | t in Sentences(ps) :: SentenceShape(t)
  {
    var ws, last := WeavePieces(ps);
  }

  /** All sentences of a finished stream. */
  ghost function AllSentences(cfg: Config, text: string): seq<string> {
    var (s, ps) := Feed(cfg, INITIAL, text);
    Sentences(ps) + Sentences(Finish(s).1)
  }

  /** While the stream runs, the input is the emitted sentences, blank space, and the buffer. */
  lemma PushConserves(cfg: Config, text: string)
    ensures var (s, ps) := Feed(cfg, INITIAL, text); Woven(text, Sentences(ps), s.buf)
    ensures forall t | t in Sentences(Feed(cfg, INITIAL, text).1) :: SentenceShape(t)
  {
    var (s, ps) := Feed(cfg, INITIAL, text);
    FeedKeeps(cfg, text);
    PiecesAreWoven(ps, s.buf);
  }

  /** After the flush nothing but blank space has been lost, and nothing has been repeated. */
  lemma FlushConserves(cfg: Config, text: string)
    ensures Woven(text, AllSentences(cfg, text), "")
    ensures forall t | t in AllSentences(cfg, text) :: SentenceShape(t)
  {
    var (s, ps) := Feed(cfg, INITIAL, text);
    FeedKeeps(cfg, text);
    var tail := Finish(s).1;
    if s.buf != "" {
      FlattenOne(tail[0]);
    }
    FlattenConcat(ps, tail);
    SentencesConcat(ps, tail);
    PiecesAreWoven(ps + tail, "");
    assert Flatten(ps + tail) + "" == text;
  }

  // ----- fences -----

  /** A fence is never cut: after text that ends outside one, fences can be counted afresh. */
  lemma {:induction false} FencesCountAfresh(cfg: Config, a: string, b: string)
    requires !FenceOpen(cfg, a) && (a != "" ==> a[|a| - 1] != '`')
    ensures FenceOpen(cfg, a + b) == FenceOpen(cfg, b)
  {
    if b == "" {
      assert a + b == a;
    } else {
      assert (a + b)[..|a + b| - 1] == a + b[..|b| - 1];
      FencesCountAfresh(cfg, a, b[..|b| - 1]);
      var u := a + b;
      assert EndsWithFence(u) == EndsWithFence(b) by {
        if |b| == 1 {
          assert |a| >= 1 ==> u[|u| - 2] == a[|a| - 1];
        } else if |b| == 2 {
          assert |a| >= 1 ==> u[|u| - 3] == a[|a| - 1];
        }
      }
    }
  }

  /** No cut falls inside a fence of the whole stream. */
  lemma {:induction false} CutsAvoidFences(cfg: Config, ps: seq<Piece>, k: nat)
    requires AllCutsOk(cfg, ps) && k <= |ps|
    ensures !FenceOpen(cfg, Flatten(ps[..k]))
    ensures Flatten(ps[..k]) != "" ==> Flatten(ps[..k])[|Flatten(ps[..k])| - 1] != '`'
  {
    if k > 0 {
      CutsAvoidFences(cfg, ps, k - 1);
      assert ps[..k][..k - 1] == ps[..k - 1];
      CutKeepsOut(cfg, Flatten(ps[..k - 1]), ps[k - 1]);
    }
  }

  lemma CutKeepsOut(cfg: Config, a: string, p: Piece)
    requires CutOk(cfg, p) && !FenceOpen(cfg, a) && (a != "" ==> a[|a| - 1] != '`')
    ensures var u := a + p.raw; !FenceOpen(cfg, u) && (u != "" ==> u[|u| - 1] != '`')
  {
    FencesCountAfresh(cfg, a, p.raw);
    hide FenceOpen;
  }

  /** The splitter is in a fence exactly when the whole stream so far leaves one open. */
  lemma ModeIsFenceParity(cfg: Config, text: string, k: nat)
    ensures var (s, ps) := Feed(cfg, INITIAL, text);
      && (s.mode == InCodeFence <==> FenceOpen(cfg, text))
      && (k <= |ps| ==> Flatten(ps[..k]) <= text && !FenceOpen(cfg, Flatten(ps[..k])))
  {
    hide Feed, CutOk;
    var (s, ps) := Feed(cfg, INITIAL, text);
    FeedKeeps(cfg, text);
    CutsAvoidFences(cfg, ps, |ps|);
    assert ps[..|ps|] == ps;
    FencesCountAfresh(cfg, Flatten(ps), s.buf);
    if k <= |ps| {
      CutsAvoidFences(cfg, ps, k);
      assert ps == ps[..k] + ps[k..];
      FlattenConcat(ps[..k], ps[k..]);
    }
  }

  /** The fences a piece sees are the fences of the stream at that place. */
  lemma LocalFencesAreGlobal(cfg: Config, ps: seq<Piece>, k: nat, t: string)
    requires AllCutsOk(cfg, ps) && k <= |ps|
    ensures FenceOpen(cfg, Flatten(ps[..k]) + t) == FenceOpen(cfg, t)
  {
    CutsAvoidFences(cfg, ps, k);
    FencesCountAfresh(cfg, Flatten(ps[..k]), t);
  }

  const AFTER_BANG := State("!", Normal, 0, Some(0), 0)
  const AFTER_A := State("a", Normal, 2, None, 0)

  lemma BangIsDeferred(cfg: Config)
    ensures Step(cfg, INITIAL, '!') == (AFTER_BANG, [])
  {
    assert "" + ['!'] == "!";
  }

  lemma AnythingCutsTheBang(cfg: Config)
    requires cfg.maxSentenceChars > 2
    ensures Step(cfg, AFTER_BANG, 'a') == (AFTER_A, [Piece("!", Terminator('a'))])
  {
    var s := State("!a", Normal, 0, Some(0), 0);
    assert "!" + ['a'] == "!a" && "!a"[1..] == "a" && "!a"[..1] == "!";
    assert Examine(cfg, State("a", Normal, 1, None, 0), 'a') == (AFTER_A, []);
    var cut := [Piece("!", Terminator('a'))];
    assert cut + [] == cut;
    assert Settle(cfg, s, 'a') == (AFTER_A, cut);
  }

  lemma BangIsFed(cfg: Config)
    requires cfg.maxSentenceChars > 2
    ensures Feed(cfg, INITIAL, "!a") == (AFTER_A, [Piece("!", Terminator('a'))])
  {
    BangIsDeferred(cfg);
    AnythingCutsTheBang(cfg);
    FeedLast(cfg, INITIAL, "", '!');
    FeedLast(cfg, INITIAL, "!", 'a');
    assert "" + ['!'] == "!" && "!" + ['a'] == "!a";
    var none, cut: seq<Piece> := [], [Piece("!", Terminator('a'))];
    assert Feed(cfg, INITIAL, "") == (INITIAL, none) && none + none == none && none + cut == cut;
  }
}
