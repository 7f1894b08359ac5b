/**
 One assistant turn of the dialogue manager (src/dialogue/manager.cpp, run_one): the
 LLM's deltas go through the sentence splitter, the sentences are numbered and
 published, and a cap of three states stops the stream one sentence past the limit.
 */
module ManagerTurn {
  import opened Wrappers
  import opened Splitting
  import opened SplittingTheorems

  /** Sequence numbers and the cap are 32-bit. */
  const U32 := 0x1_0000_0000

  datatype CapState = Below | Pending | Cancelled

  datatype LlmSentence = LlmSentence(seqNo: nat, text: string)

  /** How many sentences a turn may publish; a cap of 0 means no cap. */
  function Take(cap: nat, ss: seq<string>): seq<string> {
    if cap == 0 || |ss| <= cap + 1 then ss else ss[..cap + 1]
  }

  /** Sentences as they are published: numbered 0, 1, 2, ... in 32 bits. */
  function Numbered(ss: seq<string>): seq<LlmSentence> {
    seq(|ss|, i requires 0 <= i < |ss| => LlmSentence(i % U32, ss[i]))
  }

  function Concat(deltas: seq<string>): string {
    if deltas == [] then "" else Concat(deltas[..|deltas| - 1]) + deltas[|deltas| - 1]
  }

  /** The sentences the splitter completes while it is fed `text`, before any flush. */
  ghost function Streamed(cfg: Config, text: string): seq<string> {
    Sentences(Feed(cfg, INITIAL, text).1)
  }

  ghost function Tail(cfg: Config, text: string): seq<string> {
    Sentences(Finish(Feed(cfg, INITIAL, text).0).1)
  }

  /** The only turns on which the 32-bit backstop, having wrapped to 0, lets one sentence too many through. */
  ghost predicate BackstopWraps(cfg: Config, cap: nat, text: string) {
    cap == U32 - 1 && |Streamed(cfg, text)| > cap
  }

  /** The cap stops the stream: request_cancel, which also cancels the turn's token. */
  ghost predicate CutByCap(cfg: Config, cap: nat, text: string) {
    cap > 0 && |Streamed(cfg, text)| > cap
  }

  lemma StreamedGrows(cfg: Config, a: string, b: string)
    ensures Feed(cfg, INITIAL, a + b).0 == Feed(cfg, Feed(cfg, INITIAL, a).0, b).0
    ensures Streamed(cfg, a + b) == Streamed(cfg, a) + Sentences(Feed(cfg, Feed(cfg, INITIAL, a).0, b).1)
  {
    FeedConcat(cfg, INITIAL, a, b);
    SentencesConcat(Feed(cfg, INITIAL, a).1, Feed(cfg, Feed(cfg, INITIAL, a).0, b).1);
  }

  lemma NumberedOneMore(ss: seq<string>, t: string)
    ensures Numbered(ss + [t]) == Numbered(ss) + [LlmSentence(|ss| % U32, t)]
  {
  }

  /** Once the limit is reached, more sentences change nothing. */
  lemma TakeSaturates(cap: nat, ss: seq<string>, longer: seq<string>)
    requires cap > 0 && |ss| > cap && ss <= longer
    ensures Take(cap, longer) == Take(cap, ss)
  {
    assert longer[..cap + 1] == ss[..cap + 1];
  }

  /** The flush adds at most one sentence. */
  lemma TailIsShort(cfg: Config, text: string)
    ensures |Tail(cfg, text)| <= 1
  {
    var s := Feed(cfg, INITIAL, text).0;
    if s.buf != "" {
      SentenceSplitter.OnePiece(s.buf, EndOfStream);
    }
  }

  lemma StreamedOnlyGrows(cfg: Config, fed: string, text: string)
    requires fed <= text
    ensures Streamed(cfg, fed) <= Streamed(cfg, text) <= AllSentences(cfg, text)
  {
    StreamedGrows(cfg, fed, text[|fed|..]);
    assert text == fed + text[|fed|..];
  }

  /** Text that arrives after the cap was passed publishes nothing that was not published. */
  lemma LaterTextIsIgnored(cfg: Config, cap: nat, fed: string, text: string)
    requires fed <= text && cap > 0 && |Streamed(cfg, fed)| > cap
    ensures Take(cap, Streamed(cfg, text)) == Take(cap, Streamed(cfg, fed))
    ensures Take(cap, AllSentences(cfg, text)) == Take(cap, Streamed(cfg, fed))
  {
    StreamedOnlyGrows(cfg, fed, text);
    TakeSaturates(cap, Streamed(cfg, fed), Streamed(cfg, text));
    TakeSaturates(cap, Streamed(cfg, fed), AllSentences(cfg, text));
  }

  /** The finished stream's first cap + 1 sentences can be read off what the splitter was fed. */
  lemma AllFromFed(cfg: Config, cap: nat, fed: string, text: string)
    requires fed <= text && (fed == text || (cap > 0 && |Streamed(cfg, fed)| > cap))
    ensures Take(cap, AllSentences(cfg, text)) == Take(cap, Streamed(cfg, fed) + Tail(cfg, fed))
    ensures |Tail(cfg, fed)| <= 1
  {
    TailIsShort(cfg, fed);
    if cap > 0 && |Streamed(cfg, fed)| > cap {
      LaterTextIsIgnored(cfg, cap, fed, text);
      TakeSaturates(cap, Streamed(cfg, fed), Streamed(cfg, fed) + Tail(cfg, fed));
    }
  }

  class Turn {
    const cap: nat
    const splitter: SentenceSplitter
    var seqNo: nat
    var capState: CapState
    var published: seq<LlmSentence>
    var tokens: seq<string>
    ghost var text: string   // every delta so far
    ghost var fed: string    // the deltas that reached the splitter

    ghost predicate Valid()
      reads this, splitter
    {
      && cap < U32
      && fed <= text && (capState != Cancelled ==> fed == text)
      && splitter.Valid() && splitter.Now() == Feed(splitter.cfg, INITIAL, fed).0
      && PublishedSoFar(Streamed(splitter.cfg, fed))
    }

    /** What the published list, the counter and the cap state say of the sentences `ss`. */
    ghost predicate PublishedSoFar(ss: seq<string>)
      reads this
    {
      && published == Numbered(Take(cap, ss))
      && seqNo == |published| % U32
      && (capState == Cancelled <==> cap > 0 && |ss| > cap)
      && (capState == Pending <==> cap > 0 && |ss| == cap)
    }

    constructor (cfg: Config, cap: nat)
      requires cap < U32
      ensures Valid() && fresh(splitter) && splitter.cfg == cfg && this.cap == cap
      ensures text == "" && published == [] && tokens == []
    {
      this.cap := cap;
      splitter := new SentenceSplitter(cfg);
      seqNo, capState, published, tokens, text, fed := 0, Below, [], [], "", "";
    }

    method OnToken(delta: string)
      requires Valid()
      modifies this, splitter
      ensures Valid()
      ensures text == old(text) + delta
      ensures fed == if cap > 0 && |Streamed(splitter.cfg, old(fed))| > cap then old(fed) else old(fed) + delta
      ensures published == Numbered(Take(cap, Streamed(splitter.cfg, text)))
      ensures cap > 0 && capState == Cancelled ==> |published| == cap + 1
      ensures tokens == old(tokens) + (if capState == Cancelled then [] else [delta])
    {
      ghost var cfg := splitter.cfg;
      if capState == Cancelled {
        text := text + delta;
        LaterTextIsIgnored(cfg, cap, fed, text);
        return;
      }
      ghost var before := Streamed(cfg, fed);
      StreamedGrows(cfg, fed, delta);
      var emitted := splitter.Push(delta);
      fed, text := fed + delta, text + delta;
      PublishUntilCancelled(emitted, before);
      if capState != Cancelled {
        tokens := tokens + [delta];
      }
    }

    /** The loop of `on_token`. */
    method PublishUntilCancelled(emitted: seq<string>, ghost before: seq<string>)
      requires cap < U32 && PublishedSoFar(before) && capState != Cancelled
      modifies this`seqNo, this`capState, this`published
      ensures PublishedSoFar(before + emitted)
    {
      var backstop := if cap > 0 then (cap + 1) % U32 else 0;
      assert before + emitted[..0] == before;
      for i := 0 to |emitted|
        invariant capState != Cancelled
        invariant PublishedSoFar(before + emitted[..i])
      {
        assert before + emitted[..i + 1] == before + emitted[..i] + [emitted[i]];
        if backstop > 0 && seqNo >= backstop {
          assert false; // never reached: the cancel one sentence past the cap comes first
          break;
        }
        PublishOne(emitted[i], before + emitted[..i]);
        if capState == Cancelled {
          TakeSaturates(cap, before + emitted[..i + 1], before + emitted);
          return;
        }
      }
      assert emitted[..|emitted|] == emitted;
    }

    /** One sentence goes out; at the cap the stream is on notice, one later it is cancelled. */
    method PublishOne(t: string, ghost ss: seq<string>)
      requires cap < U32 && PublishedSoFar(ss) && capState != Cancelled
      modifies this`seqNo, this`capState, this`published
      ensures PublishedSoFar(ss + [t])
    {
      NumberedOneMore(ss, t);
      published := published + [LlmSentence(seqNo, t)];
      seqNo := (seqNo + 1) % U32;
      if capState == Below && cap > 0 && seqNo >= cap {
        capState := Pending;
      } else if capState == Pending {
        capState := Cancelled;
      }
    }

    lemma CutIsOfTheText()
      requires Valid()
      ensures capState == Cancelled <==> CutByCap(splitter.cfg, cap, text)
    {
      StreamedOnlyGrows(splitter.cfg, fed, text);
    }

    /** The stream is over: the flushed tail is published unless the cap forbids it. */
    method OnFinished()
      requires Valid()
      modifies this, splitter
      ensures text == old(text) && fed == old(fed)
      ensures published == Numbered(Take(cap, AllSentences(splitter.cfg, text)))
         <==> !(BackstopWraps(splitter.cfg, cap, fed) && Tail(splitter.cfg, fed) != [])
      ensures cap < U32 - 1 ==> published == Numbered(Take(cap, AllSentences(splitter.cfg, text)))
    {
      ghost var ss := Streamed(splitter.cfg, fed);
      AllFromFed(splitter.cfg, cap, fed, text);
      var emitted := splitter.Flush();
      PublishTail(emitted, ss);
    }

    /** The loop of `on_finished`. */
    method PublishTail(emitted: seq<string>, ghost ss: seq<string>)
      requires cap < U32 && PublishedSoFar(ss) && |emitted| <= 1
      modifies this`seqNo, this`published
      ensures published == Numbered(Take(cap, ss + emitted)) <==> !(cap == U32 - 1 && |ss| > cap && emitted != [])
    {
      var backstop := if cap > 0 then (cap + 1) % U32 else 0;
      var start := seqNo;
      for i := 0 to |emitted|
        invariant !(i > 0 && backstop > 0 && start >= backstop)
        invariant i == 0 ==> seqNo == start && published == old(published)
        invariant i == 1 ==> published == old(published) + [LlmSentence(start, emitted[0])]
      {
        if backstop > 0 && seqNo >= backstop {
          break;
        }
        published := published + [LlmSentence(seqNo, emitted[i])];
        seqNo := (seqNo + 1) % U32;
      }
      if emitted == [] {
        assert ss + emitted == ss;
      } else if cap > 0 && |ss| > cap {
        TakeSaturates(cap, ss, ss + emitted);
        assert |old(published)| == cap + 1;
      } else {
        NumberedOneMore(ss, emitted[0]);
        assert emitted == [emitted[0]];
      }
    }
  }

  /** The text that reaches the splitter: deltas are ignored once the cap was passed. */
  ghost function FedText(cfg: Config, cap: nat, deltas: seq<string>): string {
    if deltas == [] then ""
    else
      var t := FedText(cfg, cap, deltas[..|deltas| - 1]);
      if cap > 0 && |Streamed(cfg, t)| > cap then t else t + deltas[|deltas| - 1]
  }

  /**
   A whole turn. However the LLM's text is cut into deltas, the turn publishes exactly the
   first cap + 1 sentences of the whole text, numbered from 0, if and only if the backstop
   has not wrapped in front of a flushed sentence; below the largest cap, always. It is cut
   exactly when more sentences than the cap are complete before the end of the text.
   */
  method RunTurn(cfg: Config, cap: nat, deltas: seq<string>) returns (published: seq<LlmSentence>, cut: bool)
    requires cap < U32
    ensures published == Numbered(Take(cap, AllSentences(cfg, Concat(deltas)))) <==>
      var t := FedText(cfg, cap, deltas); !(BackstopWraps(cfg, cap, t) && Tail(cfg, t) != [])
    ensures cap < U32 - 1 ==> published == Numbered(Take(cap, AllSentences(cfg, Concat(deltas))))
    ensures cut <==> CutByCap(cfg, cap, Concat(deltas))
    ensures cap < U32 - 1 ==>
      var all := AllSentences(cfg, Concat(deltas));
      && |published| == (if cap == 0 || |all| <= cap then |all| else cap + 1)
      && forall i | 0 <= i < |published| :: published[i] == LlmSentence(i % U32, all[i])
  {
    hide CutByCap, AllSentences, BackstopWraps, Streamed, Tail, Take, Numbered, Turn.PublishedSoFar, FedText, Feed;
    var turn := new Turn(cfg, cap);
    NothingYet(cfg, cap, deltas);
    for i := 0 to |deltas|
      invariant fresh(turn) && fresh(turn.splitter) && turn.Valid() && turn.cap == cap && turn.splitter.cfg == cfg
      invariant turn.text == Concat(deltas[..i]) && turn.fed == FedText(cfg, cap, deltas[..i])
    {
      OneMoreDelta(cfg, cap, deltas, i);
      turn.OnToken(deltas[i]);
    }
    assert deltas[..|deltas|] == deltas;
    turn.CutIsOfTheText();
    cut := turn.capState == Cancelled;
    turn.OnFinished();
    published := turn.published;
    FirstOnes(cap, AllSentences(cfg, Concat(deltas)));
  }

  lemma FirstOnes(cap: nat, ss: seq<string>)
    ensures var out := Numbered(Take(cap, ss));
      && |out| == (if cap == 0 || |ss| <= cap then |ss| else cap + 1)
      && forall i | 0 <= i < |out| :: out[i] == LlmSentence(i % U32, ss[i])
  {
  }

  lemma NothingYet(cfg: Config, cap: nat, deltas: seq<string>)
    ensures Concat(deltas[..0]) == FedText(cfg, cap, deltas[..0]) == ""
  {
  }

  lemma OneMoreDelta(cfg: Config, cap: nat, deltas: seq<string>, i: nat)
    requires i < |deltas|
    ensures Concat(deltas[..i + 1]) == Concat(deltas[..i]) + deltas[i]
    ensures var t := FedText(cfg, cap, deltas[..i]);
      FedText(cfg, cap, deltas[..i + 1]) == if cap > 0 && |Streamed(cfg, t)| > cap then t else t + deltas[i]
  {
    hide Streamed;
    assert deltas[..i + 1][..i] == deltas[..i];
  }

  // ----- a turn on which the backstop does wrap -----

  function Bangs(n: nat): string {
    if n == 0 then "" else Bangs(n - 1) + ['!']
  }

  function BangPieces(n: nat): seq<Piece> {
    if n == 0 then [] else BangPieces(n - 1) + [Piece("!", Terminator('!'))]
  }

  /** Each byte of a row of exclamation marks confirms the one before it. */
  lemma {:induction false} BangsAreCut(cfg: Config, n: nat)
    ensures var (s, ps) := Feed(cfg, INITIAL, Bangs(n + 1));
      && s.buf == "!" && s.mode == Normal && s.pending == Some(0) && s.dotRun == 0 && ps == BangPieces(n)
  {
    hide Step, Feed;
    FeedLast(cfg, INITIAL, Bangs(n), '!');
    FirstBang(cfg);
    if n > 0 {
      BangsAreCut(cfg, n - 1);
      NextBang(cfg, Feed(cfg, INITIAL, Bangs(n)).0);
    }
  }

  lemma FirstBang(cfg: Config)
    ensures Feed(cfg, INITIAL, "") == (INITIAL, []) && Step(cfg, INITIAL, '!') == (State("!", Normal, 0, Some(0), 0), [])
  {
    assert "" + ['!'] == "!";
  }

  lemma NextBang(cfg: Config, s: State)
    requires s.buf == "!" && s.mode == Normal && s.pending == Some(0) && s.dotRun == 0
    ensures Step(cfg, s, '!') == (State("!", Normal, 1, Some(0), 0), [Piece("!", Terminator('!'))])
  {
    assert Examine(cfg, State("!", Normal, 1, None, 0), '!') == (State("!", Normal, 1, Some(0), 0), []);
    CutIsExamined(cfg, s, '!');
    var cut := [Piece("!", Terminator('!'))];
    assert ['!'] == "!" && cut + [] == cut;
  }

  lemma {:induction false} BangSentences(n: nat)
    ensures |Sentences(BangPieces(n))| == n
  {
    if n > 0 {
      var ps := BangPieces(n);
      assert ps[..|ps| - 1] == BangPieces(n - 1) && ps[|ps| - 1].raw == "!" && TrimLeading("!") == "!";
      BangSentences(n - 1);
    }
  }

  /**
   With the largest cap there is such a turn, in a single delta: 2^32 + 1 exclamation marks.
   What the turn then publishes is not what it should.
   */
  lemma BackstopCanWrap(cfg: Config)
    ensures var t := FedText(cfg, U32 - 1, [Bangs(U32 + 1)]);
      BackstopWraps(cfg, U32 - 1, t) && Tail(cfg, t) != []
  {
    var text := Bangs(U32 + 1);
    BangsAreCut(cfg, U32);
    BangSentences(U32);
    OneDelta(cfg, U32 - 1, text);
    SentenceSplitter.OnePiece("!", EndOfStream);
    assert TrimLeading("!") == "!";
  }

  lemma OneDelta(cfg: Config, cap: nat, text: string)
    ensures FedText(cfg, cap, [text]) == text
  {
    assert [text][..0] == [] && "" + text == text;
    var none: seq<Piece> := [];
    assert Streamed(cfg, "") == Sentences(none) == [];
  }

  /** Below the largest cap no number wraps: the i-th sentence published carries number i. */
  lemma NumbersHaveNoGaps(ss: seq<string>, cap: nat, i: nat)
    requires 0 < cap < U32 - 1 && i < |Numbered(Take(cap, ss))|
    ensures Numbered(Take(cap, ss))[i] == LlmSentence(i, ss[i])
  {
  }
}
