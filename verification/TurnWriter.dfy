/**
 What is remembered of an assistant turn (src/dialogue/turn_writer.cpp): sentences and
 playback reports arrive in any order and the row is posted when the LLM ends.
 */
module TurnWriting {
  import opened Wrappers

  /** Sequence numbers are 32-bit, and `seq + 1` must still fit. */
  const MAX_SEQ := 0xFFFF_FFFF

  datatype Status = Committed | Interrupted

  datatype Row = Row(text: string, lang: string, startedAt: int, status: Status, interruptedAt: Option<nat>)

  datatype Assistant = Assistant(sentences: seq<string>, played: seq<bool>, lang: string, startedAt: int)

  datatype Event =
    | LlmStarted(turn: nat, now: int)
    | LlmSentence(turn: nat, seqNo: nat, text: string, lang: string)
    | PlaybackFinished(turn: nat, seqNo: nat)
    | LlmFinished(turn: nat, cancelled: bool)

  const NOTHING := Assistant([], [], "", 0)

  /** std::vector::resize to a size that is not smaller. */
  function Grown<T>(s: seq<T>, n: nat, filler: T): (r: seq<T>)
    ensures |r| == if |s| < n then n else |s|
    ensures forall i | 0 <= i < |r| :: r[i] == if i < |s| then s[i] else filler
  {
    if |s| < n then s + seq(n - |s|, _ => filler) else s
  }

  function WithSentence(st: Assistant, n: nat, text: string, lang: string): Assistant
    requires |st.sentences| == |st.played|
  {
    Assistant(Grown(st.sentences, n + 1, "")[n := text], Grown(st.played, n + 1, false),
              if st.lang == "" then lang else st.lang, st.startedAt)
  }

  function WithPlayed(st: Assistant, n: nat): Assistant
    requires |st.sentences| == |st.played|
  {
    st.(sentences := Grown(st.sentences, n + 1, ""), played := Grown(st.played, n + 1, false)[n := true])
  }

  predicate Paired(m: map<nat, Assistant>) {
    forall t | t in m :: |m[t].sentences| == |m[t].played|
  }

  /** What an event does to the turns in flight. */
  function Handle(m: map<nat, Assistant>, e: Event): (r: map<nat, Assistant>)
    requires Paired(m)
    ensures Paired(r)
  {
    match e
    case LlmStarted(t, now) => if t in m then m else m[t := NOTHING.(startedAt := now)]
    case LlmSentence(t, n, text, lang) => m[t := WithSentence(if t in m then m[t] else NOTHING, n, text, lang)]
    case PlaybackFinished(t, n) => if t in m then m[t := WithPlayed(m[t], n)] else m
    case LlmFinished(t, _) => m - {t}
  }

  /** The sentences that are persisted, among the first n. */
  function Kept(st: Assistant, cancelled: bool, n: nat): seq<string>
    requires |st.sentences| == |st.played| && n <= |st.sentences|
  {
    if n == 0 then []
    else
      var s := st.sentences[n - 1];
      Kept(st, cancelled, n - 1) + (if s != "" && (!cancelled || st.played[n - 1]) then [s] else [])
  }

  function Join(ss: seq<string>): string {
    if ss == [] then ""
    else if |ss| == 1 then ss[0]
    else Join(ss[..|ss| - 1]) + " " + ss[|ss| - 1]
  }

  /** The sentences in order, with single blanks between them. */
  lemma {:induction false} JoinConcat(a: seq<string>, b: seq<string>)
    ensures Join([]) == "" && forall s :: Join([s]) == s
    ensures a != [] && b != [] ==> Join(a + b) == Join(a) + " " + Join(b)
    decreases |b|
  {
    if a != [] && |b| > 1 {
      var front, last := b[..|b| - 1], b[|b| - 1];
      JoinConcat(a, front);
      assert (a + b)[..|a + b| - 1] == a + front;
      assert (Join(a) + " " + Join(front)) + " " + last == Join(a) + " " + (Join(front) + " " + last);
    } else if a != [] && |b| == 1 {
      assert (a + b)[..|a|] == a;
    }
  }

  /** The row a turn leaves behind; none if it was cancelled before anything was heard. */
  function RowOf(kept: seq<string>, lang: string, startedAt: int, cancelled: bool): Option<Row> {
    if cancelled && kept == [] then None
    else Some(Row(Join(kept), lang, startedAt, if cancelled then Interrupted else Committed,
                  if cancelled then Some(|kept|) else None))
  }

  class TurnWriter {
    var session: nat
    var inFlight: map<nat, Assistant>
    var posted: seq<Row>

    ghost predicate Valid()
      reads this
    {
      Paired(inFlight)
    }

    constructor ()
      ensures Valid() && session == 0 && inFlight == map[] && posted == []
    {
      session, inFlight, posted := 0, map[], [];
    }

    method HandleStarted(turn: nat, now: int)
      requires Valid()
      modifies this`inFlight
      ensures Valid() && inFlight == Handle(old(inFlight), LlmStarted(turn, now))
    {
      if turn !in inFlight {
        inFlight := inFlight[turn := Assistant([], [], "", now)];
      }
    }

    method HandleSentence(turn: nat, seqNo: nat, text: string, lang: string)
      requires Valid() && seqNo < MAX_SEQ
      modifies this`inFlight
      ensures Valid() && inFlight == Handle(old(inFlight), LlmSentence(turn, seqNo, text, lang))
    {
      var st := if turn in inFlight then inFlight[turn] else NOTHING;
      if st.lang == "" {
        st := st.(lang := lang);
      }
      if seqNo >= |st.sentences| {
        st := st.(sentences := Grown(st.sentences, seqNo + 1, ""), played := Grown(st.played, seqNo + 1, false));
      }
      st := st.(sentences := st.sentences[seqNo := text]);
      inFlight := inFlight[turn := st];
    }

    method HandlePlaybackFinished(turn: nat, seqNo: nat)
      requires Valid() && seqNo < MAX_SEQ
      modifies this`inFlight
      ensures Valid() && inFlight == Handle(old(inFlight), PlaybackFinished(turn, seqNo))
    {
      if turn !in inFlight {
        return;
      }
      var st := inFlight[turn];
      if seqNo >= |st.played| {
        st := st.(sentences := Grown(st.sentences, seqNo + 1, ""), played := Grown(st.played, seqNo + 1, false));
      }
      st := st.(played := st.played[seqNo := true]);
      inFlight := inFlight[turn := st];
    }

    /** The end of the LLM's stream: the turn leaves the map and its row, if any, is posted. */
    method HandleFinished(turn: nat, cancelled: bool)
      requires Valid()
      modifies this`inFlight, this`posted
      ensures Valid() && inFlight == Handle(old(inFlight), LlmFinished(turn, cancelled)) && turn !in inFlight
      ensures turn !in old(inFlight) || session == 0 ==> posted == old(posted)
      ensures turn in old(inFlight) && session != 0 ==>
        var st := old(inFlight)[turn];
        var row := RowOf(Kept(st, cancelled, |st.sentences|), st.lang, st.startedAt, cancelled);
        posted == old(posted) + (if row.Some? then [row.value] else [])
    {
      if turn !in inFlight {
        return;
      }
      var st := inFlight[turn];
      inFlight := inFlight - {turn};
      if session == 0 {
        return;
      }
      var text, count := BuildText(st, cancelled);
      if cancelled && count == 0 {
        return;
      }
      var status := if cancelled then Interrupted else Committed;
      var interruptedAt := if cancelled then Some(count) else None;
      posted := posted + [Row(text, st.lang, st.startedAt, status, interruptedAt)];
    }

    /** The loop that joins the persisted sentences and counts them. */
    static method BuildText(st: Assistant, cancelled: bool) returns (text: string, count: nat)
      requires |st.sentences| == |st.played|
      ensures text == Join(Kept(st, cancelled, |st.sentences|))
      ensures count == |Kept(st, cancelled, |st.sentences|)|
    {
      text, count := "", 0;
      for i := 0 to |st.sentences|
        invariant text == Join(Kept(st, cancelled, i))
        invariant count == |Kept(st, cancelled, i)|
        invariant text == "" <==> count == 0
      {
        var s := st.sentences[i];
        ghost var kept := Kept(st, cancelled, i);
        if s == "" {
          assert kept + [] == kept;
          continue;
        }
        if cancelled && !st.played[i] {
          assert kept + [] == kept;
          continue;
        }
        assert (kept + [s])[..|kept|] == kept;
        assert Kept(st, cancelled, i + 1) == kept + [s];
        assert "" + s == s;
        if text != "" {
          text := text + [' '];
        }
        text := text + s;
        count := count + 1;
      }
    }
  }

  // ----- order does not matter -----

  function HandleAll(m: map<nat, Assistant>, es: seq<Event>): (r: map<nat, Assistant>)
    requires Paired(m)
    ensures Paired(r)
  {
    if es == [] then m else Handle(HandleAll(m, es[..|es| - 1]), es[|es| - 1])
  }

  // What the events say of turn t, read from the events alone.

  predicate Mentions(e: Event, t: nat) {
    (e.LlmSentence? || e.PlaybackFinished?) && e.turn == t
  }

  /** One past the highest number mentioned. */
  function Bound(es: seq<Event>, t: nat): nat {
    if es == [] then 0
    else
      var b, e := Bound(es[..|es| - 1], t), es[|es| - 1];
      if Mentions(e, t) && e.seqNo >= b then e.seqNo + 1 else b
  }

  function TextOf(es: seq<Event>, t: nat, i: nat): string {
    if es == [] then ""
    else
      var e := es[|es| - 1];
      if e.LlmSentence? && e.turn == t && e.seqNo == i then e.text else TextOf(es[..|es| - 1], t, i)
  }

  predicate Heard(es: seq<Event>, t: nat, i: nat) {
    PlaybackFinished(t, i) in es
  }

  function LangOf(es: seq<Event>, t: nat): string {
    if es == [] then ""
    else
      var l, e := LangOf(es[..|es| - 1], t), es[|es| - 1];
      if l == "" && e.LlmSentence? && e.turn == t then e.lang else l
  }

  /** The state of turn t after the events `es`, if it started at `now`. */
  function Collected(es: seq<Event>, t: nat, now: int): Assistant {
    var n := Bound(es, t);
    Assistant(seq(n, i requires 0 <= i < n => TextOf(es, t, i)), seq(n, i requires 0 <= i < n => Heard(es, t, i)),
              LangOf(es, t), now)
  }

  /** Events of turn t beyond the bound do not exist. */
  lemma {:induction false} BoundCovers(es: seq<Event>, t: nat)
    ensures forall e | e in es && Mentions(e, t) :: e.seqNo < Bound(es, t)
    ensures Bound(es, t) > 0 ==> exists e | e in es :: Mentions(e, t) && e.seqNo == Bound(es, t) - 1
  {
    if es != [] {
      var front, e := es[..|es| - 1], es[|es| - 1];
      assert es == front + [e];
      BoundCovers(front, t);
      if Bound(es, t) > 0 {
        if Bound(es, t) == Bound(front, t) {
          var f :| f in front && Mentions(f, t) && f.seqNo == Bound(front, t) - 1;
          assert f in es;
        } else {
          assert e in es;
        }
      }
    }
  }

  lemma {:induction false} NoTextBeyond(es: seq<Event>, t: nat, i: nat)
    requires i >= Bound(es, t)
    ensures TextOf(es, t, i) == "" && !Heard(es, t, i)
  {
    BoundCovers(es, t);
    if Heard(es, t, i) {
      assert Mentions(PlaybackFinished(t, i), t);
    }
    if es != [] {
      NoTextBeyond(es[..|es| - 1], t, i);
    }
  }

  lemma HeardOneMore(es: seq<Event>, e: Event, t: nat, i: nat)
    ensures Heard(es + [e], t, i) <==> Heard(es, t, i) || e == PlaybackFinished(t, i)
  {
  }

  /** One event of any turn moves turn t from what the events said to what they say now. */
  lemma CollectOne(es: seq<Event>, e: Event, t: nat, now: int)
    requires !(e.LlmFinished? && e.turn == t)
    ensures var st := Collected(es, t, now);
      Collected(es + [e], t, now) == match e
        case LlmSentence(u, n, text, lang) => if u == t then WithSentence(st, n, text, lang) else st
        case PlaybackFinished(u, n) => if u == t then WithPlayed(st, n) else st
        case _ => st
  {
    var fs := es + [e];
    assert fs[..|es|] == es && fs[|es|] == e;
    var st, st' := Collected(es, t, now), Collected(fs, t, now);
    forall i: nat | i < Bound(fs, t)
      ensures i >= Bound(es, t) ==> TextOf(es, t, i) == "" && !Heard(es, t, i)
      ensures Heard(fs, t, i) <==> Heard(es, t, i) || e == PlaybackFinished(t, i)
      ensures TextOf(fs, t, i) == if e.LlmSentence? && e.turn == t && e.seqNo == i then e.text else TextOf(es, t, i)
    {
      HeardOneMore(es, e, t, i);
      if i >= Bound(es, t) {
        NoTextBeyond(es, t, i);
      }
    }
    if e.LlmSentence? && e.turn == t {
      assert st'.sentences == WithSentence(st, e.seqNo, e.text, e.lang).sentences;
      assert st'.played == WithSentence(st, e.seqNo, e.text, e.lang).played;
    } else if e.PlaybackFinished? && e.turn == t {
      assert st'.sentences == WithPlayed(st, e.seqNo).sentences;
      assert st'.played == WithPlayed(st, e.seqNo).played;
    } else {
      assert st'.sentences == st.sentences;
      assert st'.played == st.played;
    }
  }

  /** Whatever other turns do meanwhile, turn t holds exactly what its own events say. */
  lemma {:induction false} StateIsCollected(m: map<nat, Assistant>, es: seq<Event>, t: nat, now: int)
    requires Paired(m) && t in m && m[t] == NOTHING.(startedAt := now)
    requires forall e | e in es && e.LlmFinished? :: e.turn != t
    ensures t in HandleAll(m, es) && HandleAll(m, es)[t] == Collected(es, t, now)
  {
    if es == [] {
      assert Collected(es, t, now) == NOTHING.(startedAt := now);
    } else {
      var front, e := es[..|es| - 1], es[|es| - 1];
      assert es == front + [e];
      StateIsCollected(m, front, t, now);
      CollectOne(front, e, t, now);
    }
  }

  /** A turn that is not in flight is opened by its start or its first sentence, and by nothing else. */
  lemma {:induction false} UnknownStaysUnknown(m: map<nat, Assistant>, es: seq<Event>, t: nat)
    requires Paired(m) && t !in m
    requires forall e | e in es && e.turn == t :: e.PlaybackFinished? || e.LlmFinished?
    ensures t !in HandleAll(m, es)
  {
    if es != [] {
      assert es[|es| - 1] in es;
      UnknownStaysUnknown(m, es[..|es| - 1], t);
    }
  }

  /** A turn opened by a sentence holds what is said from it on, and has no start time. */
  lemma {:induction false} SentenceOpensTurn(m: map<nat, Assistant>, e: Event, es: seq<Event>, t: nat)
    requires Paired(m) && t !in m && e.LlmSentence? && e.turn == t
    requires forall f | f in es && f.LlmFinished? :: f.turn != t
    ensures t in HandleAll(Handle(m, e), es) && HandleAll(Handle(m, e), es)[t] == Collected([e] + es, t, 0)
  {
    if es == [] {
      CollectOne([], e, t, 0);
      assert Collected([], t, 0) == NOTHING && [] + [e] == [e] == [e] + es;
    } else {
      var front, f := es[..|es| - 1], es[|es| - 1];
      assert f in es;
      SentenceOpensTurn(m, e, front, t);
      CollectOne([e] + front, f, t, 0);
      assert ([e] + front) + [f] == [e] + es;
    }
  }

  // Reordering.

  /** Turn t has one text per number and one language. */
  ghost predicate Coherent(es: seq<Event>, t: nat, lang: string) {
    && (forall e | e in es && e.LlmSentence? && e.turn == t :: e.lang == lang)
    && (forall e, f | e in es && f in es && e.LlmSentence? && f.LlmSentence? && e.turn == t && f.turn == t
          && e.seqNo == f.seqNo :: e.text == f.text)
  }

  lemma {:induction false} TextIsReported(es: seq<Event>, t: nat, i: nat, lang: string)
    requires Coherent(es, t, lang)
    ensures forall e | e in es && e.LlmSentence? && e.turn == t && e.seqNo == i :: TextOf(es, t, i) == e.text
    ensures TextOf(es, t, i) != "" ==> LlmSentence(t, i, TextOf(es, t, i), lang) in es
  {
    if es != [] {
      var front, e := es[..|es| - 1], es[|es| - 1];
      assert es == front + [e];
      assert forall x | x in front :: x in es;
      TextIsReported(front, t, i, lang);
    }
  }

  lemma {:induction false} LangIsReported(es: seq<Event>, t: nat, lang: string)
    requires Coherent(es, t, lang)
    ensures LangOf(es, t) == if exists e | e in es :: e.LlmSentence? && e.turn == t then lang else ""
  {
    if es != [] {
      var front, e := es[..|es| - 1], es[|es| - 1];
      assert es == front + [e];
      assert forall x | x in front :: x in es;
      LangIsReported(front, t, lang);
      if x :| x in es && x.LlmSentence? && x.turn == t {
        assert x in front || x == e;
      }
    }
  }

  /** Events in another order, or reported again, leave turn t in the same state. */
  lemma OrderDoesNotMatter(es: seq<Event>, fs: seq<Event>, t: nat, now: int, lang: string)
    requires Coherent(es, t, lang)
    requires forall e :: e in es <==> e in fs
    ensures Collected(es, t, now) == Collected(fs, t, now)
  {
    BoundCovers(es, t);
    BoundCovers(fs, t);
    assert Bound(es, t) == Bound(fs, t);
    LangIsReported(es, t, lang);
    LangIsReported(fs, t, lang);
    forall i: nat | i < Bound(es, t) ensures TextOf(es, t, i) == TextOf(fs, t, i) {
      TextIsReported(es, t, i, lang);
      TextIsReported(fs, t, i, lang);
    }
  }

  /** The sentences to persist, from the events alone: reported, not empty, and heard if the turn was cancelled. */
  function Selection(es: seq<Event>, t: nat, cancelled: bool, n: nat): seq<string> {
    if n == 0 then []
    else
      Selection(es, t, cancelled, n - 1)
      + (if TextOf(es, t, n - 1) != "" && (!cancelled || Heard(es, t, n - 1)) then [TextOf(es, t, n - 1)] else [])
  }

  lemma {:induction false} KeptIsSelected(es: seq<Event>, t: nat, now: int, cancelled: bool, n: nat)
    requires n <= Bound(es, t)
    ensures Kept(Collected(es, t, now), cancelled, n) == Selection(es, t, cancelled, n)
  {
    if n > 0 {
      KeptIsSelected(es, t, now, cancelled, n - 1);
    }
  }

  /** The row that the end of turn t posts after the events `es`, starting from `m`. */
  function PostedRow(m: map<nat, Assistant>, t: nat, now: int, es: seq<Event>, cancelled: bool): Option<Row>
    requires Paired(m)
  {
    var r := HandleAll(Handle(m, LlmStarted(t, now)), es);
    if t !in r then None else RowOf(Kept(r[t], cancelled, |r[t].sentences|), r[t].lang, r[t].startedAt, cancelled)
  }

  /** The row, from the events alone. */
  lemma RowIsSelection(m: map<nat, Assistant>, t: nat, now: int, es: seq<Event>, cancelled: bool)
    requires Paired(m) && t !in m && forall e | e in es && e.LlmFinished? :: e.turn != t
    ensures var kept := Selection(es, t, cancelled, Bound(es, t));
      PostedRow(m, t, now, es, cancelled) == RowOf(kept, LangOf(es, t), now, cancelled)
  {
    StateIsCollected(Handle(m, LlmStarted(t, now)), es, t, now);
    KeptIsSelected(es, t, now, cancelled, Bound(es, t));
  }

  /** Any order of the same reports, mixed in any way with other turns, posts the same row. */
  lemma SameRowInAnyOrder(m: map<nat, Assistant>, m': map<nat, Assistant>, t: nat, now: int,
                          es: seq<Event>, fs: seq<Event>, lang: string, cancelled: bool)
    requires Paired(m) && Paired(m') && t !in m && t !in m'
    requires forall e | e in es && e.LlmFinished? :: e.turn != t
    requires Coherent(es, t, lang) && multiset(es) == multiset(fs)
    ensures PostedRow(m, t, now, es, cancelled) == PostedRow(m', t, now, fs, cancelled)
  {
    assert forall e :: e in es <==> e in multiset(es);
    assert forall e :: e in fs <==> e in multiset(fs);
    StateIsCollected(Handle(m, LlmStarted(t, now)), es, t, now);
    StateIsCollected(Handle(m', LlmStarted(t, now)), fs, t, now);
    OrderDoesNotMatter(es, fs, t, now, lang);
  }

  /** A cancelled turn leaves no row exactly when no reported, non-empty sentence was heard. */
  lemma {:induction false} DiscardedExactlyWhenUnheard(es: seq<Event>, t: nat, n: nat)
    ensures Selection(es, t, true, n) == []
       <==> forall i | 0 <= i < n :: TextOf(es, t, i) == "" || !Heard(es, t, i)
  {
    if n > 0 {
      DiscardedExactlyWhenUnheard(es, t, n - 1);
    }
  }
}
