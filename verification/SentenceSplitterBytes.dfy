/**
 What the splitter's tests on bytes mean: fences, abbreviations and list markers, spelled out
 without the predicates that the splitter itself uses.
 */
module SplittingBytes {
  import opened Wrappers
  import opened Splitting
  import opened SplittingTheorems

  /** The classes of bytes, by their codes in ASCII. */
  lemma Codes(c: char)
    ensures IsTerminator(c) <==> c as int in {0x21, 0x2E, 0x3F}
    ensures IsWhitespace(c) <==> c as int in {0x09, 0x0A, 0x0D, 0x20}
    ensures IsDigit(c) <==> 0x30 <= c as int <= 0x39
    ensures IsMarkerChar(c) <==> 0x30 <= c as int <= 0x39 || 0x41 <= c as int <= 0x5A || 0x61 <= c as int <= 0x7A
    ensures IsAbbreviationChar(c) <==> IsMarkerChar(c) || c as int == 0x2E
    ensures ToLower(c) as int == c as int + if 0x41 <= c as int <= 0x5A then 0x20 else 0
  {
  }

  // ----- fences -----

  /** The third of three backticks stands at i. */
  predicate ThirdBacktick(t: string, i: nat) {
    2 <= i < |t| && t[i - 2..i + 1] == "```"
  }

  ghost function ThirdBackticks(t: string): set<nat> {
    set i: nat | i < |t| && ThirdBacktick(t, i)
  }

  lemma FenceIsBackticks(t: string)
    requires t != ""
    ensures EndsWithFence(t) <==> ThirdBacktick(t, |t| - 1)
  {
    if |t| >= 3 {
      assert t[|t| - 3..|t|] == [t[|t| - 3], t[|t| - 2], t[|t| - 1]];
      assert "```" == ['`', '`', '`'];
    }
  }

  lemma PlaceStays(t: string, c: char, i: nat)
    requires i < |t|
    ensures ThirdBacktick(t + [c], i) <==> ThirdBacktick(t, i)
  {
    if 2 <= i {
      assert (t + [c])[i - 2..i + 1] == t[i - 2..i + 1];
    }
  }

  lemma ThirdBackticksGrow(t: string, c: char)
    ensures |ThirdBackticks(t + [c])| == |ThirdBackticks(t)| + if ThirdBacktick(t + [c], |t|) then 1 else 0
  {
    forall i: nat | i < |t|
      ensures ThirdBacktick(t + [c], i) <==> ThirdBacktick(t, i)
    {
      PlaceStays(t, c, i);
    }
    hide ThirdBacktick;
    var last: set<nat> := if ThirdBacktick(t + [c], |t|) then {|t|} else {};
    assert ThirdBackticks(t + [c]) == ThirdBackticks(t) + last;
    assert |t| !in ThirdBackticks(t);
  }

  /**
   A text leaves a fence open if and only if fences are looked for and the number of places
   at which a third backtick in a row stands is odd.
   */
  lemma {:induction false} FenceIsParity(cfg: Config, t: string)
    ensures FenceOpen(cfg, t) <==> cfg.detectCodeFences && |ThirdBackticks(t)| % 2 == 1
  {
    if t == "" {
      assert ThirdBackticks(t) == {};
    } else {
      var front, c := t[..|t| - 1], t[|t| - 1];
      assert t == front + [c];
      FenceIsParity(cfg, front);
      FenceIsBackticks(t);
      ThirdBackticksGrow(front, c);
      hide ThirdBackticks, ThirdBacktick, EndsWithFence;
    }
  }

  // ----- words -----

  /** `w` is `s` but for capital letters. */
  predicate SameButCapitals(s: string, w: string) {
    |s| == |w| && forall k | 0 <= k < |s| ::
      w[k] as int == s[k] as int + if 0x41 <= s[k] as int <= 0x5A then 0x20 else 0
  }

  lemma SameIsLowerCase(s: string, w: string)
    ensures SameButCapitals(s, w) <==> LowerCase(s) == w
  {
    forall k | 0 <= k < |s|
      ensures ToLower(s[k]) as int == s[k] as int + if 0x41 <= s[k] as int <= 0x5A then 0x20 else 0
    {
      Codes(s[k]);
    }
    if SameButCapitals(s, w) {
      forall k | 0 <= k < |s|
        ensures LowerCase(s)[k] == w[k]
      {
      }
    }
  }

  predicate WordByte(c: char) {
    0x30 <= c as int <= 0x39 || 0x41 <= c as int <= 0x5A || 0x61 <= c as int <= 0x7A || c as int == 0x2E
  }

  /** `t` is something that ends in no word byte, then `word`, which consists of word bytes. */
  predicate EndsInWord(t: string, word: string) {
    && |word| <= |t| && t[|t| - |word|..] == word && (forall c | c in word :: WordByte(c))
    && (|word| < |t| ==> !WordByte(t[|t| - |word| - 1]))
  }

  lemma LastWordIsWord(t: string, i: int)
    requires 0 <= i <= |t|
    ensures LastWordAt(t, i) <==> EndsInWord(t, t[i..])
  {
    forall c: char
      ensures WordByte(c) <==> IsAbbreviationChar(c)
    {
      Codes(c);
    }
    assert forall k | i <= k < |t| :: t[i..][k - i] == t[k];
    hide IsAbbreviationChar, WordByte;
  }

  /**
   A final dot is an abbreviation's if and only if the whole word in front of it is one of the
   known abbreviations, whatever letters of it are capitals.
   */
  lemma AbbreviationIsKnownWord(t: string)
    ensures EndsWithAbbreviation(t + ".") <==>
      exists word, w :: word != "" && EndsInWord(t, word) && SameButCapitals(word, w) && w in ABBREVIATIONS
  {
    var s := t + ".";
    assert s[..|s| - 1] == t;
    if EndsWithAbbreviation(s) {
      var i :| LastWordAt(t, i) && i < |t| && LowerCase(t[i..]) in ABBREVIATIONS;
      LastWordIsWord(t, i);
      SameIsLowerCase(t[i..], LowerCase(t[i..]));
      assert EndsInWord(t, t[i..]);
    }
    if word, w :| word != "" && EndsInWord(t, word) && SameButCapitals(word, w) && w in ABBREVIATIONS {
      var i := |t| - |word|;
      LastWordIsWord(t, i);
      SameIsLowerCase(word, w);
      assert t[i..] == word;
    }
  }

  predicate LetterOrDigit(c: char) {
    0x30 <= c as int <= 0x39 || 0x41 <= c as int <= 0x5A || 0x61 <= c as int <= 0x7A
  }

  /** The last n bytes of `t` are letters or digits, one to three, behind blank space or nothing. */
  predicate ShortMarker(t: string, n: int) {
    1 <= n <= 3 && n <= |t| && (forall k | |t| - n <= k < |t| :: LetterOrDigit(t[k]))
    && (n < |t| ==> t[|t| - n - 1] as int in {0x09, 0x0A, 0x0D, 0x20})
  }

  ghost predicate MarkerPlace(t: string, i: int) {
    LastMarkerAt(t, i) && 1 <= |t| - i <= 3 && (i == 0 || IsWhitespace(t[i - 1]))
  }

  lemma MarkerIsShort(t: string, i: int)
    ensures ShortMarker(t, |t| - i) <==> MarkerPlace(t, i)
  {
    forall k | 0 <= k < |t|
      ensures LetterOrDigit(t[k]) <==> IsMarkerChar(t[k])
      ensures IsWhitespace(t[k]) <==> t[k] as int in {0x09, 0x0A, 0x0D, 0x20}
      ensures IsWhitespace(t[k]) ==> !IsMarkerChar(t[k])
    {
      Codes(t[k]);
    }
    hide IsMarkerChar, IsWhitespace, LetterOrDigit;
  }

  lemma MarkerHasPlace(t: string)
    ensures EndsWithListMarker(t + ".") <==> exists i :: MarkerPlace(t, i)
  {
    var s := t + ".";
    assert EndsWithDot(s) <==> t != "";
    assert s[..|s| - 1] == t;
    hide LastMarkerAt, IsWhitespace, EndsWithDot;
    if EndsWithListMarker(s) {
      var i :| LastMarkerAt(t, i) && 1 <= |t| - i <= 3 && (i == 0 || IsWhitespace(t[i - 1]));
      assert MarkerPlace(t, i);
    }
    if i :| MarkerPlace(t, i) {
      PlaceInRange(t, i);
      assert LastMarkerAt(t, i);
    }
  }

  lemma PlaceInRange(t: string, i: int)
    requires MarkerPlace(t, i)
    ensures 0 <= i < |t|
  {
  }

  /** A final dot is a list marker's if and only if such a marker stands in front of it. */
  lemma ListMarkerIsShort(t: string)
    ensures EndsWithListMarker(t + ".") <==> exists n :: ShortMarker(t, n)
  {
    MarkerHasPlace(t);
    hide *;
    if i :| MarkerPlace(t, i) {
      MarkerIsShort(t, i);
    }
    if n :| ShortMarker(t, n) {
      MarkerIsShort(t, |t| - n);
      assert |t| - (|t| - n) == n;
    }
  }
}
