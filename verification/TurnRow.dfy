/**
 From the LLM's text to the row that is remembered: the dialogue manager and the turn writer
 together (src/dialogue/manager.cpp, src/dialogue/turn_writer.cpp).
 */
module TurnRows {
  import opened Wrappers
  import opened Splitting
  import opened SplittingTheorems
  import M = ManagerTurn
  import T = TurnWriting

  function AsEvent(t: nat, s: M.LlmSentence, lang: string): T.Event {
    T.LlmSentence(t, s.seqNo, s.text, lang)
  }

  /** The sentences of turn t among the events are the published ones, in any order and any number of times. */
  ghost predicate Reported(es: seq<T.Event>, t: nat, lang: string, published: seq<M.LlmSentence>) {
    && (forall s | s in published :: AsEvent(t, s, lang) in es)
    && forall e | e in es && e.LlmSentence? && e.turn == t :: exists s | s in published :: e == AsEvent(t, s, lang)
  }

  /** The sentences whose end of playback was reported. */
  function HeardOf(es: seq<T.Event>, t: nat, ss: seq<string>): seq<string> {
    if ss == [] then []
    else HeardOf(es, t, ss[..|ss| - 1]) + if T.Heard(es, t, |ss| - 1) then [ss[|ss| - 1]] else []
  }

  lemma PublishedAt(ss: seq<string>, i: nat)
    requires |ss| <= T.MAX_SEQ && i < |ss|
    ensures M.Numbered(ss)[i] == M.LlmSentence(i, ss[i]) && M.LlmSentence(i, ss[i]) in M.Numbered(ss)
  {
    assert M.Numbered(ss)[i] in M.Numbered(ss);
  }

  lemma ReportedIsNumbered(es: seq<T.Event>, t: nat, lang: string, ss: seq<string>, e: T.Event)
    requires |ss| <= T.MAX_SEQ && Reported(es, t, lang, M.Numbered(ss)) && e in es && e.LlmSentence? && e.turn == t
    ensures e.seqNo < |ss| && e.text == ss[e.seqNo] && e.lang == lang
  {
    var s :| s in M.Numbered(ss) && e == AsEvent(t, s, lang);
    var i :| 0 <= i < |ss| && M.Numbered(ss)[i] == s;
  }

  lemma ReportsAreCoherent(es: seq<T.Event>, t: nat, lang: string, ss: seq<string>)
    requires |ss| <= T.MAX_SEQ && Reported(es, t, lang, M.Numbered(ss))
    ensures T.Coherent(es, t, lang)
  {
    forall e | e in es && e.LlmSentence? && e.turn == t
      ensures e.seqNo < |ss| && e.text == ss[e.seqNo] && e.lang == lang
    {
      ReportedIsNumbered(es, t, lang, ss, e);
    }
    hide Reported;
  }

  lemma TextIsPublished(es: seq<T.Event>, t: nat, lang: string, ss: seq<string>, i: nat)
    requires |ss| <= T.MAX_SEQ && Reported(es, t, lang, M.Numbered(ss))
    ensures T.TextOf(es, t, i) == if i < |ss| then ss[i] else ""
    ensures i < |ss| ==> i < T.Bound(es, t)
  {
    ReportsAreCoherent(es, t, lang, ss);
    T.TextIsReported(es, t, i, lang);
    T.BoundCovers(es, t);
    if i < |ss| {
      PublishedAt(ss, i);
      var e := AsEvent(t, M.LlmSentence(i, ss[i]), lang);
      assert e in es && T.Mentions(e, t);
    } else if T.TextOf(es, t, i) != "" {
      ReportedIsNumbered(es, t, lang, ss, T.LlmSentence(t, i, T.TextOf(es, t, i), lang));
      assert false;
    }
  }

  lemma LangIsPublished(es: seq<T.Event>, t: nat, lang: string, ss: seq<string>)
    requires |ss| <= T.MAX_SEQ && Reported(es, t, lang, M.Numbered(ss))
    ensures T.LangOf(es, t) == if ss == [] then "" else lang
  {
    ReportsAreCoherent(es, t, lang, ss);
    T.LangIsReported(es, t, lang);
    if ss != [] {
      PublishedAt(ss, 0);
      assert AsEvent(t, M.LlmSentence(0, ss[0]), lang) in es;
    } else if e :| e in es && e.LlmSentence? && e.turn == t {
      ReportedIsNumbered(es, t, lang, ss, e);
      assert false;
    }
  }

  /** Beyond the last published number there is nothing to persist, whatever is reported as played. */
  lemma {:induction false} SelectionIsPublished(es: seq<T.Event>, t: nat, lang: string, ss: seq<string>, cancelled: bool, n: nat)
    requires |ss| <= T.MAX_SEQ && Reported(es, t, lang, M.Numbered(ss)) && forall s | s in ss :: s != ""
    ensures T.Selection(es, t, cancelled, n) == Chosen(es, t, ss[..if n < |ss| then n else |ss|], cancelled)
  {
    hide Reported;
    if n > 0 {
      SelectionIsPublished(es, t, lang, ss, cancelled, n - 1);
      TextIsPublished(es, t, lang, ss, n - 1);
      if n <= |ss| {
        ChosenGrows(es, t, ss, cancelled, n);
      }
    }
  }

  /** What a turn's row keeps of its sentences. */
  function Chosen(es: seq<T.Event>, t: nat, ss: seq<string>, cancelled: bool): seq<string> {
    if cancelled then HeardOf(es, t, ss) else ss
  }

  lemma ChosenGrows(es: seq<T.Event>, t: nat, ss: seq<string>, cancelled: bool, n: nat)
    requires 0 < n <= |ss|
    ensures ss[n - 1] in ss
    ensures Chosen(es, t, ss[..n], cancelled) == Chosen(es, t, ss[..n - 1], cancelled)
      + if !cancelled || T.Heard(es, t, n - 1) then [ss[n - 1]] else []
  {
    assert ss[..n][..n - 1] == ss[..n - 1];
  }

  /**
   The row of a whole turn. Whatever the deltas, in whatever order sentences and playback are
   reported, and whatever other turns do: a turn that is not cancelled is remembered as the
   first cap + 1 sentences of the whole text, in order. One that is, be it by the user or by
   the cap itself, is remembered as those of them that were heard, and as nothing if none was.
   */
  lemma RowIsTheText(cfg: Config, cap: nat, text: string, lang: string, m: map<nat, T.Assistant>, t: nat, now: int,
                     es: seq<T.Event>, interrupted: bool)
    requires cap < M.U32 - 1 && (cap == 0 ==> |AllSentences(cfg, text)| <= T.MAX_SEQ)
    requires T.Paired(m) && t !in m && forall e | e in es && e.LlmFinished? :: e.turn != t
    requires Reported(es, t, lang, M.Numbered(M.Take(cap, AllSentences(cfg, text))))
    ensures var ss, cancelled := M.Take(cap, AllSentences(cfg, text)), interrupted || M.CutByCap(cfg, cap, text);
      var heard, l := HeardOf(es, t, ss), if ss == [] then "" else lang;
      T.PostedRow(m, t, now, es, cancelled) ==
        if !cancelled then Some(T.Row(T.Join(ss), l, now, T.Committed, None))
        else if heard == [] then None
        else Some(T.Row(T.Join(heard), l, now, T.Interrupted, Some(|heard|)))
  {
    var ss, cancelled := M.Take(cap, AllSentences(cfg, text)), interrupted || M.CutByCap(cfg, cap, text);
    FlushConserves(cfg, text);
    assert forall s | s in ss :: s in AllSentences(cfg, text) && s != "";
    hide AllSentences, M.Take, M.Streamed, Reported, T.PostedRow, HeardOf, T.Join, T.Bound, T.Selection, M.CutByCap;
    assert |ss| <= T.MAX_SEQ by {
      TakeFits(cap, AllSentences(cfg, text));
    }
    var n := T.Bound(es, t);
    T.RowIsSelection(m, t, now, es, cancelled);
    LangIsPublished(es, t, lang, ss);
    SelectionIsPublished(es, t, lang, ss, cancelled, n);
    if ss != [] {
      TextIsPublished(es, t, lang, ss, |ss| - 1);
    }
    assert ss[..if n < |ss| then n else |ss|] == ss;
  }

  lemma {:induction false} NoneHeard(es: seq<T.Event>, t: nat, ss: seq<string>)
    requires forall i :: !T.Heard(es, t, i)
    ensures HeardOf(es, t, ss) == []
  {
    if ss != [] {
      NoneHeard(es, t, ss[..|ss| - 1]);
    }
  }

  /** Three exclamation marks with a cap of one, and nothing played before the stream ends: no row is left. */
  lemma CapCanForgetATurn(cfg: Config, lang: string, m: map<nat, T.Assistant>, t: nat, now: int, es: seq<T.Event>)
    requires T.Paired(m) && t !in m && forall e | e in es && e.LlmFinished? :: e.turn != t
    requires Reported(es, t, lang, M.Numbered(M.Take(1, AllSentences(cfg, M.Bangs(3))))) && forall i :: !T.Heard(es, t, i)
    ensures M.CutByCap(cfg, 1, M.Bangs(3)) && T.PostedRow(m, t, now, es, true) == None
  {
    M.BangsAreCut(cfg, 2);
    M.BangSentences(2);
    assert M.CutByCap(cfg, 1, M.Bangs(3));
    hide *;
    RowIsTheText(cfg, 1, M.Bangs(3), lang, m, t, now, es, false);
    NoneHeard(es, t, M.Take(1, AllSentences(cfg, M.Bangs(3))));
  }

  lemma TakeFits(cap: nat, ss: seq<string>)
    requires cap < M.U32 - 1 && (cap == 0 ==> |ss| <= T.MAX_SEQ)
    ensures |M.Take(cap, ss)| <= T.MAX_SEQ
  {
  }
}
