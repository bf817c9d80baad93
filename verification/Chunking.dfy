/** Cutting a document into overlapping windows that end at word boundaries. */
module Chunking {

  // ---- Whitespace normalisation ----

  /** The length of the word the text starts with. */
  function WordLength(text: string, isSpace: char -> bool): (n: nat)
    ensures n <= |text|
    ensures forall i :: 0 <= i < n ==> !isSpace(text[i])
    ensures n < |text| ==> isSpace(text[n])
  {
    if text == "" || isSpace(text[0]) then 0 else 1 + WordLength(text[1..], isSpace)
  }

  function Split(text: string, isSpace: char -> bool): seq<string> {
    if text == "" then []
    else if isSpace(text[0]) then Split(text[1..], isSpace)
    else
      var n := WordLength(text, isSpace);
      [text[..n]] + Split(text[n..], isSpace)
  }

  function Join(words: seq<string>): string {
    if words == [] then ""
    else if |words| == 1 then words[0]
    else words[0] + " " + Join(words[1..])
  }

  function Normalize(text: string, isSpace: char -> bool): string {
    Join(Split(text, isSpace))
  }

  ghost predicate AreWords(words: seq<string>, isSpace: char -> bool) {
    forall i :: 0 <= i < |words| ==> words[i] != "" && forall k :: 0 <= k < |words[i]| ==> !isSpace(words[i][k])
  }

  /** No space at either end, no two spaces in a row, and no other whitespace. */
  ghost predicate WellSpaced(t: string, isSpace: char -> bool) {
    && (t != "" ==> !isSpace(t[0]) && !isSpace(t[|t| - 1]))
    && (forall i :: 0 <= i < |t| && isSpace(t[i]) ==> t[i] == ' ')
    && (forall i :: 0 <= i < |t| - 1 ==> !(isSpace(t[i]) && isSpace(t[i + 1])))
  }

  lemma {:induction false} SplitGivesWords(text: string, isSpace: char -> bool)
    ensures AreWords(Split(text, isSpace), isSpace)
  {
    if text == "" {
    } else if isSpace(text[0]) {
      SplitGivesWords(text[1..], isSpace);
    } else {
      SplitGivesWords(text[WordLength(text, isSpace)..], isSpace);
    }
  }

  lemma WordLengthIs(text: string, isSpace: char -> bool, n: nat)
    requires n <= |text| && (forall i :: 0 <= i < n ==> !isSpace(text[i]))
    requires n < |text| ==> isSpace(text[n])
    ensures WordLength(text, isSpace) == n
  {
  }

  /** Splitting undoes joining; so normalising twice is normalising once, and loses no word. */
  lemma {:induction false} SplitOfJoin(words: seq<string>, isSpace: char -> bool)
    requires AreWords(words, isSpace) && isSpace(' ')
    ensures Split(Join(words), isSpace) == words
  {
    if |words| == 0 {
    } else if |words| == 1 {
      WordLengthIs(words[0], isSpace, |words[0]|);
      assert words[0][..|words[0]|] == words[0] && words[0][|words[0]|..] == "";
    } else {
      var t := Join(words);
      var rest := Join(words[1..]);
      var n := |words[0]|;
      WordLengthIs(t, isSpace, n);
      assert t[..n] == words[0] && t[n..] == " " + rest;
      assert (" " + rest)[1..] == rest;
      SplitOfJoin(words[1..], isSpace);
    }
  }

  lemma {:induction false} JoinIsWellSpaced(words: seq<string>, isSpace: char -> bool)
    requires AreWords(words, isSpace) && isSpace(' ')
    ensures WellSpaced(Join(words), isSpace)
    ensures words != [] ==> Join(words) != ""
  {
    if |words| > 1 {
      JoinIsWellSpaced(words[1..], isSpace);
    }
  }

  lemma NormalizeKeepsWords(text: string, isSpace: char -> bool)
    requires isSpace(' ')
    ensures WellSpaced(Normalize(text, isSpace), isSpace)
    ensures Split(Normalize(text, isSpace), isSpace) == Split(text, isSpace)
    ensures Normalize(Normalize(text, isSpace), isSpace) == Normalize(text, isSpace)
  {
    SplitGivesWords(text, isSpace);
    JoinIsWellSpaced(Split(text, isSpace), isSpace);
    SplitOfJoin(Split(text, isSpace), isSpace);
  }

  // ---- The words of a text ----

  /** A longest run of characters that are not whitespace. */
  ghost predicate Stretch(text: string, isSpace: char -> bool, i: nat, j: nat) {
    && i < j <= |text| && (forall k :: i <= k < j ==> !isSpace(text[k]))
    && (i > 0 ==> isSpace(text[i - 1])) && (j < |text| ==> isSpace(text[j]))
  }

  lemma SplitSpace(text: string, isSpace: char -> bool)
    requires text != "" && isSpace(text[0])
    ensures Split(text, isSpace) == Split(text[1..], isSpace)
  {
  }

  lemma SplitWord(text: string, isSpace: char -> bool, n: nat)
    requires Stretch(text, isSpace, 0, n)
    ensures Split(text, isSpace) == [text[..n]] + Split(text[n..], isSpace)
  {
    WordLengthIs(text, isSpace, n);
  }

  lemma Regroup(text: string, n: nat, j: nat)
    requires n <= j <= |text|
    ensures text[..j][..n] == text[..n]
    ensures text[..j][n..] == text[n..][..j - n]
    ensures text[n..][j - n..] == text[j..]
  {
  }

  lemma Regrouped(a: seq<string>, b: seq<string>, c: seq<string>)
    ensures a + (b + c) == (a + b) + c
  {
  }

  lemma {:induction false} SplitBeforeSpaceInside(text: string, isSpace: char -> bool, n: nat, j: nat)
    requires 0 < n <= j < |text| && isSpace(text[j])
    requires if isSpace(text[0]) then n == 1 else Stretch(text, isSpace, 0, n)
    requires Split(text[n..], isSpace) == Split(text[n..][..j - n], isSpace) + Split(text[n..][j - n..], isSpace)
    ensures Split(text, isSpace) == Split(text[..j], isSpace) + Split(text[j..], isSpace)
  {
    hide Split;
    Regroup(text, n, j);
    var middle, rest := Split(text[..j][n..], isSpace), Split(text[j..], isSpace);
    if isSpace(text[0]) {
      SplitSpace(text, isSpace);
      SplitSpace(text[..j], isSpace);
    } else {
      SplitWord(text, isSpace, n);
      StretchInFront(text, isSpace, n, j);
      SplitWord(text[..j], isSpace, n);
      Regrouped([text[..n]], middle, rest);
    }
  }

  lemma StretchInFront(text: string, isSpace: char -> bool, n: nat, j: nat)
    requires Stretch(text, isSpace, 0, n) && n <= j <= |text|
    ensures Stretch(text[..j], isSpace, 0, n)
  {
  }

  lemma FirstStretch(text: string, isSpace: char -> bool) returns (n: nat)
    requires text != "" && !isSpace(text[0])
    ensures Stretch(text, isSpace, 0, n)
  {
    n := WordLength(text, isSpace);
  }

  /** A text may be cut in front of a space without touching its words. */
  lemma {:induction false} SplitBeforeSpace(text: string, isSpace: char -> bool, j: nat)
    requires j < |text| && isSpace(text[j])
    ensures Split(text, isSpace) == Split(text[..j], isSpace) + Split(text[j..], isSpace)
    decreases |text|
  {
    if j == 0 {
      assert text[..0] == "" && text[0..] == text;
    } else {
      hide Split;
      var n := 1;
      if !isSpace(text[0]) {
        n := FirstStretch(text, isSpace);
      }
      SplitBeforeSpace(text[n..], isSpace, j - n);
      SplitBeforeSpaceInside(text, isSpace, n, j);
    }
  }

  /** And so behind one. */
  lemma SplitAfterSpace(text: string, isSpace: char -> bool, i: nat)
    requires 0 < i <= |text| && isSpace(text[i - 1])
    ensures Split(text, isSpace) == Split(text[..i], isSpace) + Split(text[i..], isSpace)
  {
    SplitOfSpace(text[i - 1], isSpace);
    hide Split;
    var before := Split(text[..i - 1], isSpace);
    SplitBeforeSpace(text, isSpace, i - 1);
    SplitBeforeSpace(text[..i], isSpace, i - 1);
    SplitSpace(text[i - 1..], isSpace);
    Regroup(text, i - 1, i);
    assert text[i - 1..][..1] == [text[i - 1]];
    assert before + [] == before;
  }

  lemma SplitOfSpace(c: char, isSpace: char -> bool)
    requires isSpace(c)
    ensures Split([c], isSpace) == [] && Split("", isSpace) == []
  {
    assert [c][1..] == "";
  }

  /** Every stretch is a word, with the words before it in front and the words after it behind. */
  lemma StretchIsWord(text: string, isSpace: char -> bool, i: nat, j: nat)
    requires Stretch(text, isSpace, i, j)
    ensures Split(text, isSpace) == Split(text[..i], isSpace) + [text[i..j]] + Split(text[j..], isSpace)
  {
    var rest := text[i..];
    if i > 0 {
      SplitAfterSpace(text, isSpace, i);
    } else {
      assert text[..0] == "" && rest == text;
    }
    hide Split;
    SplitWord(rest, isSpace, j - i);
    assert rest[..j - i] == text[i..j] && rest[j - i..] == text[j..];
  }

  /** A stretch of what follows is one of the whole, if what follows begins with a space, or after one. */
  lemma StretchMoves(text: string, isSpace: char -> bool, n: nat, i: nat, j: nat)
    requires 0 < n <= i && n <= |text| && i <= j && Stretch(text[n..], isSpace, i - n, j - n)
    requires isSpace(text[n - 1]) || (n < |text| && isSpace(text[n]))
    ensures Stretch(text, isSpace, i, j) && text[n..][i - n..j - n] == text[i..j] && (!isSpace(text[n - 1]) ==> i > n)
  {
    assert forall k :: n <= k < |text| ==> text[n..][k - n] == text[k];
  }

  /** The `k`-th word is the stretch from `i` to `j`. */
  ghost predicate IsWord(text: string, isSpace: char -> bool, k: nat, i: nat, j: nat) {
    && Stretch(text, isSpace, i, j) && k < |Split(text, isSpace)| && Split(text, isSpace)[k] == text[i..j]
    && |Split(text[..i], isSpace)| == k
  }

  lemma FirstWord(text: string, isSpace: char -> bool, n: nat)
    requires Stretch(text, isSpace, 0, n)
    ensures IsWord(text, isSpace, 0, 0, n)
  {
    SplitWord(text, isSpace, n);
    assert text[..0] == "";
  }

  lemma WordBehindSpace(text: string, isSpace: char -> bool, k: nat, i: nat, j: nat)
    requires text != "" && isSpace(text[0]) && IsWord(text[1..], isSpace, k, i, j)
    ensures IsWord(text, isSpace, k, i + 1, j + 1)
  {
    hide Split;
    StretchMoves(text, isSpace, 1, i + 1, j + 1);
    SplitSpace(text, isSpace);
    SplitSpace(text[..i + 1], isSpace);
    Regroup(text, 1, i + 1);
  }

  lemma WordBehindWord(text: string, isSpace: char -> bool, n: nat, k: nat, i: nat, j: nat)
    requires Stretch(text, isSpace, 0, n) && IsWord(text[n..], isSpace, k, i, j)
    ensures IsWord(text, isSpace, k + 1, n + i, n + j)
  {
    hide Split;
    assert n < |text| && isSpace(text[n]);
    StretchMoves(text, isSpace, n, n + i, n + j);
    SplitWord(text, isSpace, n);
    StretchInFront(text, isSpace, n, n + i);
    SplitWord(text[..n + i], isSpace, n);
    Regroup(text, n, n + i);
  }

  lemma FewerWords(text: string, isSpace: char -> bool)
    requires Split(text, isSpace) != []
    ensures text != ""
    ensures isSpace(text[0]) ==> |Split(text[1..], isSpace)| == |Split(text, isSpace)|
  {
  }

  /** And every word is such a stretch, in its place. */
  lemma {:induction false} WordIsStretch(text: string, isSpace: char -> bool, k: nat) returns (i: nat, j: nat)
    requires k < |Split(text, isSpace)|
    ensures IsWord(text, isSpace, k, i, j)
    decreases |text|
  {
    hide Split, IsWord;
    FewerWords(text, isSpace);
    if isSpace(text[0]) {
      var i', j' := WordIsStretch(text[1..], isSpace, k);
      WordBehindSpace(text, isSpace, k, i', j');
      i, j := i' + 1, j' + 1;
    } else {
      var n := FirstStretch(text, isSpace);
      if k == 0 {
        FirstWord(text, isSpace, n);
        i, j := 0, n;
      } else {
        SplitWord(text, isSpace, n);
        var i', j' := WordIsStretch(text[n..], isSpace, k - 1);
        WordBehindWord(text, isSpace, n, k - 1, i', j');
        i, j := n + i', n + j';
      }
    }
  }

  /** There are no words exactly where there is nothing but whitespace. */
  lemma {:induction false} NoWordsExactly(text: string, isSpace: char -> bool)
    ensures Split(text, isSpace) == [] <==> forall k :: 0 <= k < |text| ==> isSpace(text[k])
  {
    if text != "" && isSpace(text[0]) {
      NoWordsExactly(text[1..], isSpace);
      assert forall k :: 1 <= k < |text| ==> text[1..][k - 1] == text[k];
    }
  }

  function Concat(words: seq<string>): string {
    if words == [] then "" else words[0] + Concat(words[1..])
  }

  /** The text without its whitespace. */
  function Unspaced(text: string, isSpace: char -> bool): string {
    if text == "" then "" else (if isSpace(text[0]) then "" else [text[0]]) + Unspaced(text[1..], isSpace)
  }

  lemma {:induction false} WordFirst(text: string, isSpace: char -> bool, n: nat)
    requires n <= |text| && forall k :: 0 <= k < n ==> !isSpace(text[k])
    ensures Unspaced(text, isSpace) == text[..n] + Unspaced(text[n..], isSpace)
  {
    if n == 0 {
      assert text[..0] == "" && text[0..] == text;
    } else {
      WordFirst(text[1..], isSpace, n - 1);
      assert text[1..][n - 1..] == text[n..] && [text[0]] + text[1..][..n - 1] == text[..n];
    }
  }

  /** The words put together are the text without its whitespace: nothing is added, lost or moved. */
  lemma {:induction false} SplitLosesNothing(text: string, isSpace: char -> bool)
    ensures Concat(Split(text, isSpace)) == Unspaced(text, isSpace)
    decreases |text|
  {
    if text == "" {
    } else if isSpace(text[0]) {
      SplitLosesNothing(text[1..], isSpace);
      assert "" + Unspaced(text[1..], isSpace) == Unspaced(text[1..], isSpace);
    } else {
      var n := WordLength(text, isSpace);
      SplitLosesNothing(text[n..], isSpace);
      WordFirst(text, isSpace, n);
      assert ([text[..n]] + Split(text[n..], isSpace))[1..] == Split(text[n..], isSpace);
    }
  }

  // ---- Windows ----

  datatype Window = Window(start: nat, end: nat)

  /** The last space in `t[lo..hi]`, or -1. */
  function LastSpace(t: string, lo: nat, hi: nat): (b: int)
    requires lo <= hi <= |t|
    ensures b == -1 || (lo <= b < hi && t[b] == ' ')
    ensures forall i :: lo <= i < hi && b < i ==> t[i] != ' '
  {
    if lo == hi then -1
    else if t[hi - 1] == ' ' then hi - 1
    else LastSpace(t, lo, hi - 1)
  }

  /** Where the window that begins at `start` ends. */
  function End(t: string, start: nat, max: nat): (end: nat)
    requires start <= |t| && max >= 1
    ensures start < |t| ==> start < end
    ensures end <= |t| && end <= start + max
  {
    if start + max >= |t| then |t|
    else
      var boundary := LastSpace(t, start, start + max);
      if boundary > start then boundary else start + max
  }

  function NextStart(end: nat, overlap: nat): nat {
    if end >= overlap then end - overlap else 0
  }

  /** The windows the loop visits from `start` on, if it comes to an end within `n` of them. */
  ghost predicate HaltsWithin(t: string, max: nat, overlap: nat, start: nat, n: nat)
    requires max >= 1 && start <= |t|
    decreases n
  {
    n > 0 && (End(t, start, max) == |t| || HaltsWithin(t, max, overlap, NextStart(End(t, start, max), overlap), n - 1))
  }

  ghost predicate Halts(t: string, max: nat, overlap: nat)
    requires max >= 1
  {
    |t| <= max || exists n :: HaltsWithin(t, max, overlap, 0, n)
  }

  function Strip(s: string, isSpace: char -> bool): string {
    if s == "" then s
    else if isSpace(s[0]) then Strip(s[1..], isSpace)
    else if isSpace(s[|s| - 1]) then Strip(s[..|s| - 1], isSpace)
    else s
  }

  /** Each window ends where the loop would end it, and each one but the first starts where it would start. */
  ghost predicate Linked(t: string, max: nat, overlap: nat, ws: seq<Window>)
    requires max >= 1
  {
    && (ws != [] ==> ws[0].start == 0)
    && (forall k :: 0 <= k < |ws| ==> ws[k].start <= |t| && ws[k].end == End(t, ws[k].start, max))
    && forall k :: 0 <= k < |ws| - 1 ==> ws[k].end < |t| && ws[k + 1].start == NextStart(ws[k].end, overlap)
  }

  /** All the windows of a text: linked, and the last one reaches the end. */
  ghost predicate Windowing(t: string, max: nat, overlap: nat, ws: seq<Window>)
    requires max >= 1
  {
    Linked(t, max, overlap, ws) && ws != [] && ws[|ws| - 1].end == |t|
  }

  ghost predicate CutAt(t: string, ws: seq<Window>, segments: seq<string>, isSpace: char -> bool) {
    && |segments| == |ws|
    && forall k :: 0 <= k < |ws| ==>
         ws[k].start <= ws[k].end <= |t| && segments[k] == Strip(t[ws[k].start..ws[k].end], isSpace)
  }

  /** A short text stays whole; any other is cut at its windows. */
  ghost predicate Sliced(t: string, max: nat, overlap: nat, isSpace: char -> bool, segments: seq<string>,
                         ws: seq<Window>)
    requires max >= 1
  {
    if |t| <= max then segments == [t] && ws == [Window(0, |t|)]
    else Windowing(t, max, overlap, ws) && CutAt(t, ws, segments, isSpace)
  }

  lemma NothingCut(t: string, max: nat, overlap: nat, isSpace: char -> bool)
    requires max >= 1
    ensures Linked(t, max, overlap, []) && CutAt(t, [], [], isSpace)
  {
  }

  lemma LinkedMore(t: string, max: nat, overlap: nat, ws: seq<Window>, start: nat)
    requires max >= 1 && start <= |t| && Linked(t, max, overlap, ws)
    requires if ws == [] then start == 0
             else ws[|ws| - 1].end < |t| && start == NextStart(ws[|ws| - 1].end, overlap)
    ensures Linked(t, max, overlap, ws + [Window(start, End(t, start, max))])
  {
  }

  lemma CutMore(t: string, ws: seq<Window>, segments: seq<string>, isSpace: char -> bool, w: Window)
    requires CutAt(t, ws, segments, isSpace) && w.start <= w.end <= |t|
    ensures CutAt(t, ws + [w], segments + [Strip(t[w.start..w.end], isSpace)], isSpace)
  {
  }

  lemma HaltsStep(t: string, max: nat, overlap: nat, start: nat, n: nat)
    requires max >= 1 && start <= |t| && HaltsWithin(t, max, overlap, start, n)
    ensures n > 0
    ensures var end := End(t, start, max);
            end < |t| ==> start < end && HaltsWithin(t, max, overlap, NextStart(end, overlap), n - 1)
  {
  }

  lemma LastWindow(t: string, max: nat, overlap: nat, ws: seq<Window>)
    requires max >= 1 && Linked(t, max, overlap, ws) && ws != [] && ws[|ws| - 1].end >= |t|
    ensures Windowing(t, max, overlap, ws)
  {
  }

  /** The window at `start`, as the loop body computes it. */
  method NextWindow(t: string, start: nat, max: nat) returns (end: nat)
    requires max >= 1 && start <= |t|
    ensures end == End(t, start, max)
  {
    end := if start + max < |t| then start + max else |t|;
    if end < |t| {
      var boundary := LastSpace(t, start, end);
      if boundary > start {
        end := boundary;
      }
    }
  }

  /**
   * The slicing loop. It need not come to an end, so it asks for no more than that it does; when it
   * does is settled by HaltsExactly below.
   */
  method SliceText(text: string, max: nat, overlap: nat, isSpace: char -> bool)
    returns (segments: seq<string>)
    requires max >= 1 && isSpace(' ') && Halts(Normalize(text, isSpace), max, overlap)
    ensures exists ws :: Sliced(Normalize(text, isSpace), max, overlap, isSpace, segments, ws)
  {
    hide Linked, CutAt, Strip, Normalize, HaltsWithin, End, Windowing;
    var t := Normalize(text, isSpace);
    if |t| <= max {
      assert Sliced(t, max, overlap, isSpace, [t], [Window(0, |t|)]);
      return [t];
    }
    ghost var n :| HaltsWithin(t, max, overlap, 0, n);
    segments := [];
    ghost var ws: seq<Window> := [];
    NothingCut(t, max, overlap, isSpace);
    var start := 0;
    while start < |t|
      invariant 0 <= start <= |t|
      invariant HaltsWithin(t, max, overlap, start, n)
      invariant if ws == [] then start == 0
                else ws[|ws| - 1].end < |t| && start == NextStart(ws[|ws| - 1].end, overlap)
      invariant Linked(t, max, overlap, ws) && CutAt(t, ws, segments, isSpace)
      decreases n
    {
      HaltsStep(t, max, overlap, start, n);
      var end := NextWindow(t, start, max);
      LinkedMore(t, max, overlap, ws, start);
      CutMore(t, ws, segments, isSpace, Window(start, end));
      segments := segments + [Strip(t[start..end], isSpace)];
      ws := ws + [Window(start, end)];
      if end >= |t| {
        LastWindow(t, max, overlap, ws);
        assert Sliced(t, max, overlap, isSpace, segments, ws);
        return;
      }
      start := if end >= overlap then end - overlap else 0;
      n := n - 1;
    }
  }

  /** There is only one way to slice a text. */
  lemma SlicingIsDetermined(t: string, max: nat, overlap: nat, isSpace: char -> bool, segments: seq<string>,
                            ws: seq<Window>, others: seq<string>, vs: seq<Window>)
    requires max >= 1 && Sliced(t, max, overlap, isSpace, segments, ws)
    requires Sliced(t, max, overlap, isSpace, others, vs)
    ensures ws == vs && segments == others
  {
    hide Windowing, CutAt;
    if |t| > max {
      OneWindowing(t, max, overlap, ws, vs);
      OneCut(t, ws, segments, others, isSpace);
    }
  }

  lemma OneCut(t: string, ws: seq<Window>, segments: seq<string>, others: seq<string>, isSpace: char -> bool)
    requires CutAt(t, ws, segments, isSpace) && CutAt(t, ws, others, isSpace)
    ensures segments == others
  {
    hide Strip;
  }

  lemma OneWindowing(t: string, max: nat, overlap: nat, ws: seq<Window>, vs: seq<Window>)
    requires max >= 1 && Windowing(t, max, overlap, ws) && Windowing(t, max, overlap, vs)
    ensures ws == vs
  {
    hide End, NextStart;
    var n := if |ws| < |vs| then |ws| else |vs|;
    SameWindows(t, max, overlap, ws, vs, n);
    assert ws[..n][n - 1] == vs[..n][n - 1];
    assert ws[n - 1] == vs[n - 1];
    assert |ws| == n && |vs| == n;
    assert ws[..n] == ws && vs[..n] == vs;
  }

  lemma {:induction false} SameWindows(t: string, max: nat, overlap: nat, ws: seq<Window>, vs: seq<Window>, n: nat)
    requires max >= 1 && Linked(t, max, overlap, ws) && Linked(t, max, overlap, vs) && n <= |ws| && n <= |vs|
    ensures ws[..n] == vs[..n]
  {
    hide End, NextStart;
    if n > 0 {
      SameWindows(t, max, overlap, ws, vs, n - 1);
      if n > 1 {
        assert ws[..n - 1][n - 2] == vs[..n - 1][n - 2];
        assert ws[n - 2] == vs[n - 2];
      }
      assert ws[n - 1] == vs[n - 1];
      assert ws[..n] == ws[..n - 1] + [ws[n - 1]] && vs[..n] == vs[..n - 1] + [vs[n - 1]];
    }
  }

  /**
   * What the windows are, in so many words: from the start of the text to its end; each ends at the last
   * space behind its start, or is full where there is none, or ends with the text; and the next begins
   * `overlap` before that end, or at the start of the text.
   */
  ghost predicate WindowsAre(t: string, max: nat, overlap: nat, ws: seq<Window>) {
    && ws != [] && ws[0].start == 0 && ws[|ws| - 1].end == |t|
    && (forall k :: 0 <= k < |ws| ==> ws[k].start <= |t| && EndsRight(t, max, ws[k]))
    && forall k :: 0 <= k < |ws| - 1 ==>
         ws[k].end < |t| && ws[k + 1].start == if ws[k].end >= overlap then ws[k].end - overlap else 0
  }

  ghost predicate EndsRight(t: string, max: nat, w: Window) {
    if w.start + max >= |t| then w.end == |t|
    else
      || (w.start < w.end < w.start + max && t[w.end] == ' '
          && forall i :: w.end < i < w.start + max ==> t[i] != ' ')
      || (w.end == w.start + max && forall i :: w.start < i < w.start + max ==> t[i] != ' ')
  }

  lemma EndMeans(t: string, max: nat, w: Window)
    requires max >= 1 && w.start <= |t|
    ensures w.end == End(t, w.start, max) <==> EndsRight(t, max, w)
  {
    if w.start + max < |t| {
      var boundary := LastSpace(t, w.start, w.start + max);
      if w.start < w.end < w.start + max && t[w.end] == ' ' {
        assert boundary >= w.end;
      }
      if boundary > w.start {
        assert t[boundary] == ' ';
      }
    }
  }

  /** The slicing rule means exactly that. */
  lemma WindowingMeans(t: string, max: nat, overlap: nat, ws: seq<Window>)
    requires max >= 1
    ensures Windowing(t, max, overlap, ws) <==> WindowsAre(t, max, overlap, ws)
  {
    hide End, EndsRight;
    forall k | 0 <= k < |ws| && ws[k].start <= |t|
      ensures ws[k].end == End(t, ws[k].start, max) <==> EndsRight(t, max, ws[k])
    {
      EndMeans(t, max, ws[k]);
    }
  }

  // ---- When the loop ends ----

  ghost predicate Spaceless(t: string, i: nat, j: nat) {
    i <= j <= |t| && forall k :: i <= k < j ==> t[k] != ' '
  }

  /** No stretch without a space is longer than `longest`. */
  ghost predicate WordsWithin(t: string, longest: nat) {
    forall i: nat, j: nat :: Spaceless(t, i, j) ==> j - i <= longest
  }

  /** Room in every window for its overlap, the longest word, a space on each side of it, and progress. */
  predicate Roomy(longest: nat, max: nat, overlap: nat) {
    longest + overlap + 2 <= max
  }

  /** How far each window but the last moves on, at least. */
  function Gain(longest: nat, max: nat, overlap: nat): nat
    requires Roomy(longest, max, overlap)
  {
    max - 1 - longest - overlap
  }

  /** A roomy window that is not the last ends at a space, with less than a word cut off. */
  lemma RoomyWindow(t: string, start: nat, longest: nat, max: nat)
    requires max >= 1 && start + max < |t| && WordsWithin(t, longest) && longest + 2 <= max
    ensures var end := End(t, start, max);
            start + max - 1 - longest <= end < |t| && t[end] == ' ' && start < end
  {
    var b := LastSpace(t, start, start + max);
    var from := if b == -1 then start else b + 1;
    assert Spaceless(t, from, start + max);
  }

  /** The window at `start` ends short of the text and leads back to its own start. */
  predicate Stuck(t: string, max: nat, overlap: nat, start: nat)
    requires max >= 1 && start <= |t|
  {
    End(t, start, max) < |t| && NextStart(End(t, start, max), overlap) == start
  }

  ghost predicate NeverStuck(t: string, max: nat, overlap: nat)
    requires max >= 1
  {
    forall s: nat :: s <= |t| ==> !Stuck(t, max, overlap, s)
  }

  /** Windows that start later do not end earlier. */
  lemma EndsInOrder(t: string, max: nat, early: nat, late: nat)
    requires max >= 1 && early <= late <= |t|
    ensures End(t, early, max) <= End(t, late, max)
  {
  }

  /** A run that has not gone back so far never does; so, unless it gets stuck, it comes to the end. */
  lemma {:induction false} HaltsByProgress(t: string, max: nat, overlap: nat, start: nat)
    requires max >= 1 && start <= |t| && NeverStuck(t, max, overlap)
    requires End(t, start, max) < |t| ==> start <= NextStart(End(t, start, max), overlap)
    ensures HaltsWithin(t, max, overlap, start, |t| - start + 1)
    decreases |t| - start
  {
    if End(t, start, max) < |t| {
      var next := NextStart(End(t, start, max), overlap);
      assert !Stuck(t, max, overlap, start);
      EndsInOrder(t, max, start, next);
      HaltsByProgress(t, max, overlap, next);
      HaltsLonger(t, max, overlap, next, |t| - next + 1, |t| - start);
    }
  }

  lemma {:induction false} HaltsLonger(t: string, max: nat, overlap: nat, start: nat, n: nat, m: nat)
    requires max >= 1 && start <= |t| && n <= m && HaltsWithin(t, max, overlap, start, n)
    ensures HaltsWithin(t, max, overlap, start, m)
    decreases n
  {
    if End(t, start, max) < |t| {
      HaltsLonger(t, max, overlap, NextStart(End(t, start, max), overlap), n - 1, m - 1);
    }
  }

  /** No run gets past a window that leads back to its own start. */
  lemma {:induction false} FixedPointNeverHalts(t: string, max: nat, overlap: nat, start: nat, stuck: nat, n: nat)
    requires max >= 1 && start <= stuck <= |t| && Stuck(t, max, overlap, stuck)
    ensures !HaltsWithin(t, max, overlap, start, n)
    decreases n
  {
    if n > 0 {
      EndsInOrder(t, max, start, stuck);
      FixedPointNeverHalts(t, max, overlap, NextStart(End(t, start, max), overlap), stuck, n - 1);
    }
  }

  /** The loop ends on a text exactly when none of its windows leads back to its own start. */
  lemma HaltsUnlessStuck(t: string, max: nat, overlap: nat)
    requires max >= 1
    ensures Halts(t, max, overlap) <==> NeverStuck(t, max, overlap)
  {
    if NeverStuck(t, max, overlap) {
      HaltsByProgress(t, max, overlap, 0);
    } else {
      var stuck: nat :| stuck <= |t| && Stuck(t, max, overlap, stuck);
      forall n
        ensures !HaltsWithin(t, max, overlap, 0, n)
      {
        FixedPointNeverHalts(t, max, overlap, 0, stuck, n);
      }
    }
  }

  lemma EnoughRoomHalts(t: string, longest: nat, max: nat, overlap: nat)
    requires max >= 1 && WordsWithin(t, longest) && (overlap == 0 || Roomy(longest, max, overlap))
    ensures Halts(t, max, overlap)
  {
    forall s: nat | s <= |t|
      ensures !Stuck(t, max, overlap, s)
    {
      if overlap > 0 && s + max < |t| {
        RoomyWindow(t, s, longest, max);
      }
    }
    HaltsUnlessStuck(t, max, overlap);
  }

  function Letters(n: nat): string {
    seq(n, _ => 'x')
  }

  /** One-letter words, the first doubled where the length asks for it. */
  function Filler(n: nat): string {
    seq(n, i => if 0 < i && i % 2 == n % 2 then ' ' else 'x')
  }

  predicate Blank(c: char) {
    c == ' '
  }

  /** A text that is never finished: filler, a long word close to the end of the first window, and one more word. */
  function Trap(max: nat, length: nat): string
    requires 1 <= length <= max - 2
  {
    Filler(max - 1 - length) + " " + Letters(length) + " x"
  }

  lemma TrapIsEndless(max: nat, overlap: nat, length: nat)
    requires 1 <= length <= max - 2 && overlap >= max - 1 - length
    ensures Stuck(Trap(max, length), max, overlap, 0)
  {
    var t := Trap(max, length);
    var b := max - 1 - length;
    assert t[b] == ' ' && forall k :: b < k < max ==> t[k] == 'x';
    assert LastSpace(t, 0, max) == b;
  }

  /** A stretch of the trap that is longer than the long word meets a space. */
  lemma TrapHasSpace(max: nat, length: nat, i: nat, j: nat) returns (k: nat)
    requires 1 <= length <= max - 2 && (length == 1 ==> max % 2 == 1)
    requires length < j - i && j <= |Trap(max, length)|
    ensures i <= k < j && Trap(max, length)[k] == ' '
  {
    var b := max - 1 - length;
    if i <= b < j {
      k := b;
    } else if i <= b + 1 + length < j {
      k := b + 1 + length;
    } else {
      assert j <= b;
      k := if i % 2 == b % 2 && i > 0 then i else if (i + 1) % 2 == b % 2 then i + 1 else i + 2;
    }
  }

  lemma TrapWords(max: nat, length: nat)
    requires 1 <= length <= max - 2 && (length == 1 ==> max % 2 == 1)
    ensures WordsWithin(Trap(max, length), length)
  {
    forall i: nat, j: nat | length < j - i && j <= |Trap(max, length)|
      ensures !Spaceless(Trap(max, length), i, j)
    {
      var k := TrapHasSpace(max, length, i, j);
    }
  }

  lemma TrapIsWellSpaced(max: nat, length: nat)
    requires 1 <= length <= max - 2
    ensures WellSpaced(Trap(max, length), Blank)
  {
    var t, b := Trap(max, length), max - 1 - length;
    assert forall i :: 0 <= i < b ==> t[i] == Filler(b)[i];
    assert t[b - 1] == 'x' && t[b] == ' ' && t[|t| - 2] == ' ' && t[|t| - 1] == 'x';
    assert forall i :: b < i < |t| - 2 ==> t[i] == 'x';
  }

  /** One-letter words, for windows of even size. */
  function Alternating(max: nat): string {
    seq(max + 3, i => if i % 2 == 1 then ' ' else 'x')
  }

  lemma AlternatingIsEndless(max: nat, overlap: nat)
    requires max >= 4 && max % 2 == 0 && overlap >= max - 2
    ensures WordsWithin(Alternating(max), 1) && WellSpaced(Alternating(max), Blank)
    ensures Stuck(Alternating(max), max, overlap, if overlap == max - 2 then 1 else 0)
  {
    var t := Alternating(max);
    forall i: nat, j: nat | 1 < j - i && j <= |t|
      ensures !Spaceless(t, i, j)
    {
      assert t[i] == ' ' || t[i + 1] == ' ';
    }
    hide WordsWithin, WellSpaced;
    assert t[max - 1] == ' ' && t[max] == 'x';
    assert LastSpace(t, 0, max) == max - 1 && LastSpace(t, 1, max + 1) == max - 1;
  }

  lemma TinyWindows(max: nat, overlap: nat)
    requires 1 <= max <= 2 && overlap >= 1
    ensures WordsWithin("x x", 1) && WellSpaced("x x", Blank) && Stuck("x x", max, overlap, 0)
  {
    var t := "x x";
    assert t[1] == ' ' && LastSpace(t, 0, 1) == -1 && LastSpace(t, 0, 2) == 1;
    forall i: nat, j: nat | 1 < j - i && j <= |t|
      ensures !Spaceless(t, i, j)
    {
      assert i <= 1 < j;
    }
  }

  /** Some text with words of at most `longest` letters that the loop never finishes. */
  lemma EndlessText(longest: nat, max: nat, overlap: nat) returns (t: string)
    requires longest >= 1 && max >= 1 && overlap >= 1 && !Roomy(longest, max, overlap)
    ensures WellSpaced(t, Blank) && WordsWithin(t, longest) && !Halts(t, max, overlap)
  {
    var length := if longest <= max - 2 then longest else max - 2;
    if max <= 2 {
      t := "x x";
      TinyWindows(max, overlap);
    } else if length == 1 && max % 2 == 0 {
      t := Alternating(max);
      AlternatingIsEndless(max, overlap);
    } else {
      t := Trap(max, length);
      TrapWords(max, length);
      TrapIsWellSpaced(max, length);
      TrapIsEndless(max, overlap, length);
    }
    HaltsUnlessStuck(t, max, overlap);
  }

  lemma NoWordsNoText(t: string)
    requires WellSpaced(t, Blank) && WordsWithin(t, 0)
    ensures t == ""
  {
    assert t != "" ==> Spaceless(t, 0, 1);
  }

  /**
   * The loop ends on every text whose words have at most `longest` letters exactly when there is no
   * overlap, or the windows have room for it (or there are no words at all).
   */
  lemma HaltsExactly(longest: nat, max: nat, overlap: nat)
    requires max >= 1
    ensures longest == 0 || overlap == 0 || Roomy(longest, max, overlap) <==>
            forall t: string :: WellSpaced(t, Blank) && WordsWithin(t, longest) ==> Halts(t, max, overlap)
  {
    if longest == 0 {
      forall t: string | WellSpaced(t, Blank) && WordsWithin(t, longest)
        ensures Halts(t, max, overlap)
      {
        NoWordsNoText(t);
      }
    } else if overlap == 0 || Roomy(longest, max, overlap) {
      forall t: string | WordsWithin(t, longest)
        ensures Halts(t, max, overlap)
      {
        EnoughRoomHalts(t, longest, max, overlap);
      }
    } else {
      var t := EndlessText(longest, max, overlap);
    }
  }

  // ---- What the windows keep ----

  ghost predicate RoomyWindowing(t: string, max: nat, overlap: nat, ws: seq<Window>, longest: nat) {
    max >= 1 && |t| > max && Roomy(longest, max, overlap) && WordsWithin(t, longest) && Windowing(t, max, overlap, ws)
  }

  /** Every window but the last ends at a space and moves on by at least the gain; so ends increase. */
  lemma WindowsAdvance(t: string, max: nat, overlap: nat, ws: seq<Window>, longest: nat, k: nat)
    requires RoomyWindowing(t, max, overlap, ws, longest) && k < |ws| - 1
    ensures ws[k].end < |t| && t[ws[k].end] == ' ' && ws[k].start < ws[k].end
    ensures ws[k + 1].start >= ws[k].start + (max - 1 - longest - overlap)
    ensures ws[k].end < ws[k + 1].end
    ensures ws[k + 1].start <= ws[k].end && ws[k].end - ws[k + 1].start <= overlap
  {
    RoomyWindow(t, ws[k].start, longest, max);
    if ws[k + 1].start + max < |t| {
      RoomyWindow(t, ws[k + 1].start, longest, max);
    }
  }

  lemma {:induction false} StartsGrow(t: string, max: nat, overlap: nat, ws: seq<Window>, longest: nat, k: nat)
    requires RoomyWindowing(t, max, overlap, ws, longest) && k < |ws|
    ensures ws[k].start >= k * Gain(longest, max, overlap)
  {
    hide Gain, Windowing, WordsWithin;
    if k > 0 {
      StartsGrow(t, max, overlap, ws, longest, k - 1);
      OneGain(t, max, overlap, ws, longest, k - 1);
      Multiplies(k, Gain(longest, max, overlap));
    }
  }

  lemma OneGain(t: string, max: nat, overlap: nat, ws: seq<Window>, longest: nat, k: nat)
    requires RoomyWindowing(t, max, overlap, ws, longest) && k < |ws| - 1
    ensures ws[k + 1].start >= ws[k].start + Gain(longest, max, overlap)
  {
    WindowsAdvance(t, max, overlap, ws, longest, k);
  }

  lemma Multiplies(k: nat, gain: nat)
    requires k > 0
    ensures k * gain == (k - 1) * gain + gain
  {
  }

  /** How many windows there can be. */
  lemma WindowCount(t: string, max: nat, overlap: nat, ws: seq<Window>, longest: nat)
    requires RoomyWindowing(t, max, overlap, ws, longest)
    ensures |ws| >= 2 && (|ws| - 2) * (max - 1 - longest - overlap) < |t| - max
  {
    assert |ws| >= 2;
    StartsGrow(t, max, overlap, ws, longest, |ws| - 2);
  }

  /** Room for every word: as above, or without overlap just for the longest word and the space before it. */
  predicate WordsFit(longest: nat, max: nat, overlap: nat) {
    if overlap == 0 then longest + 1 <= max else Roomy(longest, max, overlap)
  }

  ghost predicate FittingWindowing(t: string, max: nat, overlap: nat, ws: seq<Window>, longest: nat) {
    && max >= 1 && |t| > max && WordsFit(longest, max, overlap) && WordsWithin(t, longest)
    && Windowing(t, max, overlap, ws)
  }

  /** Without overlap a window may begin with the space its predecessor stopped at; it still ends at a space. */
  lemma WindowAfterSpace(t: string, start: nat, longest: nat, max: nat)
    requires longest + 1 <= max && start + max < |t| && WordsWithin(t, longest) && (start == 0 || t[start] == ' ')
    ensures t[End(t, start, max)] == ' '
  {
    if LastSpace(t, start, start + max) <= start {
      var from := if t[start] == ' ' then start + 1 else start;
      assert t[start + max] != ' ' ==> Spaceless(t, from, start + max + 1);
    }
  }

  lemma {:induction false} EndsAtSpace(t: string, max: nat, overlap: nat, ws: seq<Window>, longest: nat, k: nat)
    requires FittingWindowing(t, max, overlap, ws, longest) && k < |ws| - 1
    ensures ws[k].end < |t| && t[ws[k].end] == ' '
  {
    if overlap > 0 {
      RoomyWindow(t, ws[k].start, longest, max);
    } else {
      if k > 0 {
        EndsAtSpace(t, max, overlap, ws, longest, k - 1);
      }
      WindowAfterSpace(t, ws[k].start, longest, max);
    }
  }

  /** The first window that reaches as far as `j`. */
  lemma {:induction false} Reaching(ws: seq<Window>, j: nat, n: nat) returns (k: nat)
    requires n < |ws| && j <= ws[n].end
    ensures k <= n && j <= ws[k].end && (k > 0 ==> ws[k - 1].end < j)
  {
    if n > 0 && j <= ws[n - 1].end {
      k := Reaching(ws, j, n - 1);
    } else {
      k := n;
    }
  }

  /** No word is lost: every stretch without a space lies whole inside some window. */
  lemma WordInWindow(t: string, max: nat, overlap: nat, ws: seq<Window>, longest: nat, i: nat, j: nat)
    returns (k: nat)
    requires FittingWindowing(t, max, overlap, ws, longest) && i < j && Spaceless(t, i, j)
    ensures k < |ws| && ws[k].start <= i && j <= ws[k].end
  {
    k := Reaching(ws, j, |ws| - 1);
    if k > 0 {
      EndsAtSpace(t, max, overlap, ws, longest, k - 1);
    }
  }

  lemma SliceOfSlice(t: string, lo: nat, hi: nat, i: nat, j: nat)
    requires lo <= i <= j <= hi <= |t|
    ensures t[lo..hi][i - lo..j - lo] == t[i..j]
  {
    forall k | 0 <= k < j - i
      ensures t[lo..hi][i - lo..j - lo][k] == t[i..j][k]
    {
      assert t[lo..hi][i - lo + k] == t[i + k];
    }
  }

  lemma StripFirst(s: string, isSpace: char -> bool)
    requires s != "" && isSpace(s[0])
    ensures Strip(s, isSpace) == Strip(s[1..], isSpace)
  {
  }

  lemma StripLast(s: string, isSpace: char -> bool)
    requires s != "" && !isSpace(s[0]) && isSpace(s[|s| - 1])
    ensures Strip(s, isSpace) == Strip(s[..|s| - 1], isSpace)
  {
  }

  lemma OneMoreInFront(s: string, p: string, m: string, q: string)
    requires s != "" && s[1..] == p + m + q
    ensures s == ([s[0]] + p) + m + q
  {
  }

  lemma OneMoreBehind(s: string, p: string, m: string, q: string)
    requires s != "" && s[..|s| - 1] == p + m + q
    ensures s == p + m + (q + [s[|s| - 1]])
  {
  }

  lemma StripNone(s: string, isSpace: char -> bool)
    requires s == "" || (!isSpace(s[0]) && !isSpace(s[|s| - 1]))
    ensures Strip(s, isSpace) == s == "" + s + ""
  {
  }

  /** Stripping takes away spaces on both sides. */
  lemma {:induction false} StripParts(s: string, isSpace: char -> bool) returns (p: string, q: string)
    ensures s == p + Strip(s, isSpace) + q
    ensures forall k :: 0 <= k < |p| ==> isSpace(p[k])
    ensures forall k :: 0 <= k < |q| ==> isSpace(q[k])
    decreases |s|
  {
    hide Strip;
    if s != "" && isSpace(s[0]) {
      p, q := StripParts(s[1..], isSpace);
      StripFirst(s, isSpace);
      OneMoreInFront(s, p, Strip(s, isSpace), q);
      p := [s[0]] + p;
    } else if s != "" && isSpace(s[|s| - 1]) {
      p, q := StripParts(s[..|s| - 1], isSpace);
      StripLast(s, isSpace);
      OneMoreBehind(s, p, Strip(s, isSpace), q);
      q := q + [s[|s| - 1]];
    } else {
      p, q := "", "";
      StripNone(s, isSpace);
    }
  }

  /** And leaves none at either end. */
  lemma {:induction false} StripIsTight(s: string, isSpace: char -> bool)
    ensures var stripped := Strip(s, isSpace);
            stripped == "" || (!isSpace(stripped[0]) && !isSpace(stripped[|stripped| - 1]))
    decreases |s|
  {
    if s != "" {
      if isSpace(s[0]) {
        StripIsTight(s[1..], isSpace);
      } else if isSpace(s[|s| - 1]) {
        StripIsTight(s[..|s| - 1], isSpace);
      }
    }
  }

  /** A segment is its window's text without the whitespace around it. */
  lemma SegmentsAreTrimmed(t: string, ws: seq<Window>, segments: seq<string>, isSpace: char -> bool, k: nat)
    returns (p: string, q: string)
    requires CutAt(t, ws, segments, isSpace) && k < |ws|
    ensures k < |segments| && ws[k].start <= ws[k].end <= |t|
    ensures t[ws[k].start..ws[k].end] == p + segments[k] + q
    ensures (forall i :: 0 <= i < |p| ==> isSpace(p[i])) && forall i :: 0 <= i < |q| ==> isSpace(q[i])
    ensures segments[k] != "" ==> !isSpace(segments[k][0]) && !isSpace(segments[k][|segments[k]| - 1])
  {
    p, q := StripParts(t[ws[k].start..ws[k].end], isSpace);
    StripIsTight(t[ws[k].start..ws[k].end], isSpace);
  }

  /** So it cuts off nothing between two characters that are not spaces. */
  lemma StripKeeps(s: string, isSpace: char -> bool, i: nat, j: nat) returns (k: nat)
    requires i < j <= |s| && !isSpace(s[i]) && !isSpace(s[j - 1])
    ensures k <= i && j - k <= |Strip(s, isSpace)| <= |s| && Strip(s, isSpace)[i - k..j - k] == s[i..j]
  {
    hide Strip;
    var p, q := StripParts(s, isSpace);
    k := |p|;
    var hi := |s| - |q|;
    assert forall m :: hi <= m < |s| ==> s[m] == q[m - hi];
    assert Strip(s, isSpace) == s[k..hi];
    SliceOfSlice(s, k, hi, i, j);
  }

  lemma SpacelessEnds(t: string, i: nat, j: nat, isSpace: char -> bool)
    requires WellSpaced(t, isSpace) && i < j && Spaceless(t, i, j)
    ensures !isSpace(t[i]) && !isSpace(t[j - 1])
  {
  }

  /** What lies in a window can be read in the stripped window. */
  lemma ReadInSlice(t: string, w: Window, isSpace: char -> bool, i: nat, j: nat) returns (m: nat)
    requires w.start <= i < j <= w.end <= |t| && !isSpace(t[i]) && !isSpace(t[j - 1])
    ensures var s := Strip(t[w.start..w.end], isSpace);
            m + (j - i) <= |s| && s[m..m + (j - i)] == t[i..j]
  {
    hide Strip;
    var s := t[w.start..w.end];
    assert s[i - w.start] == t[i] && s[j - w.start - 1] == t[j - 1];
    var cut := StripKeeps(s, isSpace, i - w.start, j - w.start);
    m := i - w.start - cut;
    SliceOfSlice(t, w.start, w.end, i, j);
  }

  /** Every word of the text can be read in some segment. */
  lemma WordInSegment(t: string, max: nat, overlap: nat, ws: seq<Window>, longest: nat, segments: seq<string>,
                      isSpace: char -> bool, i: nat, j: nat) returns (k: nat, m: nat)
    requires FittingWindowing(t, max, overlap, ws, longest) && CutAt(t, ws, segments, isSpace)
    requires WellSpaced(t, isSpace) && isSpace(' ') && i < j && Spaceless(t, i, j)
    ensures k < |segments| && m + (j - i) <= |segments[k]| && segments[k][m..m + (j - i)] == t[i..j]
  {
    hide Strip;
    k := WordInWindow(t, max, overlap, ws, longest, i, j);
    SpacelessEnds(t, i, j, isSpace);
    m := ReadInSlice(t, ws[k], isSpace, i, j);
  }

  lemma EndsInWord(t: string, end: nat, isSpace: char -> bool)
    requires WellSpaced(t, isSpace) && isSpace(' ') && 1 <= end <= |t| && (end < |t| ==> t[end] == ' ')
    ensures !isSpace(t[end - 1])
  {
  }

  /** Room or no room, no window is blank. */
  lemma WindowHasLetter(t: string, max: nat, start: nat, isSpace: char -> bool) returns (i: nat)
    requires max >= 2 && start < |t| && WellSpaced(t, isSpace) && isSpace(' ')
    ensures start <= i < End(t, start, max) && !isSpace(t[i])
  {
    var end := End(t, start, max);
    if !isSpace(t[start]) {
      i := start;
    } else {
      assert start + 1 < |t|;
      i := start + 1;
      if end == start + 1 {
        EndsInWord(t, end, isSpace);
      }
    }
  }

  /** No segment is empty or longer than a window may be. */
  lemma SegmentSizes(t: string, max: nat, overlap: nat, isSpace: char -> bool, segments: seq<string>, ws: seq<Window>,
                     k: nat)
    requires max >= 2 && t != "" && WellSpaced(t, isSpace) && isSpace(' ')
    requires Sliced(t, max, overlap, isSpace, segments, ws) && k < |segments|
    ensures 1 <= |segments[k]| <= max
  {
    hide Strip;
    if |t| > max {
      var w := ws[k];
      if k > 0 {
        NonFinalStart(t, max, overlap, ws, k);
      }
      var s := t[w.start..w.end];
      var _, _ := StripParts(s, isSpace);
      var i := WindowHasLetter(t, max, w.start, isSpace);
      assert s[i - w.start] == t[i];
      var _ := StripKeeps(s, isSpace, i - w.start, i - w.start + 1);
    }
  }

  lemma NonFinalStart(t: string, max: nat, overlap: nat, ws: seq<Window>, k: nat)
    requires max >= 1 && Windowing(t, max, overlap, ws) && 0 < k < |ws|
    ensures ws[k].start < |t|
  {
    assert ws[k - 1].end < |t|;
  }

  /** Windows in the text without gaps between them, each reaching at least as far as the one before. */
  predicate Stackable(t: string, ws: seq<Window>) {
    && (forall k :: 0 <= k < |ws| ==> ws[k].start <= ws[k].end <= |t|)
    && forall k :: 0 <= k < |ws| - 1 ==> ws[k + 1].start <= ws[k].end <= ws[k + 1].end
  }

  /** The windows laid end to end, each without the part its predecessor already has. */
  function Stitch(t: string, ws: seq<Window>): string
    requires Stackable(t, ws)
  {
    if ws == [] then ""
    else if |ws| == 1 then t[ws[0].start..ws[0].end]
    else
      var n := |ws| - 1;
      var w := t[ws[n].start..ws[n].end];
      Stitch(t, ws[..n]) + w[ws[n - 1].end - ws[n].start..]
  }

  lemma {:induction false} StitchPrefix(t: string, ws: seq<Window>)
    requires ws != [] && ws[0].start == 0 && Stackable(t, ws)
    ensures Stitch(t, ws) == t[..ws[|ws| - 1].end]
  {
    if |ws| == 1 {
      assert t[0..ws[0].end] == t[..ws[0].end];
    } else {
      var n := |ws| - 1;
      assert ws[..n][n - 1] == ws[n - 1];
      StitchPrefix(t, ws[..n]);
      Extend(t, ws[n].start, ws[n - 1].end, ws[n].end);
    }
  }

  lemma Extend(t: string, start: nat, reached: nat, end: nat)
    requires start <= reached <= end <= |t|
    ensures t[..reached] + t[start..end][reached - start..] == t[..end]
  {
  }

  lemma {:induction false} StartsInOrder(t: string, max: nat, overlap: nat, ws: seq<Window>, k: nat)
    requires max >= 1 && Windowing(t, max, overlap, ws) && k < |ws| - 1
    ensures ws[k].start <= ws[k + 1].start
  {
    if k > 0 {
      StartsInOrder(t, max, overlap, ws, k - 1);
      EndsInOrder(t, max, ws[k - 1].start, ws[k].start);
    }
  }

  /** If the loop comes to an end then each window ends after the one before: otherwise it would be stuck. */
  lemma {:induction false} EndsIncrease(t: string, max: nat, overlap: nat, ws: seq<Window>, k: nat)
    requires max >= 1 && Windowing(t, max, overlap, ws) && k < |ws| - 1
    ensures ws[k].end < ws[k + 1].end
    decreases |ws| - k
  {
    StartsInOrder(t, max, overlap, ws, k);
    EndsInOrder(t, max, ws[k].start, ws[k + 1].start);
    if k + 1 < |ws| - 1 {
      EndsIncrease(t, max, overlap, ws, k + 1);
    }
  }

  /** Room or no room: the text can be put together again from the windows it has been cut into. */
  lemma TextIsRecovered(t: string, max: nat, overlap: nat, ws: seq<Window>)
    requires max >= 1 && Windowing(t, max, overlap, ws)
    ensures Stackable(t, ws) && Stitch(t, ws) == t
  {
    forall k | 0 <= k < |ws| - 1
      ensures ws[k + 1].start <= ws[k].end <= ws[k + 1].end && ws[k].start <= ws[k].end
    {
      EndsIncrease(t, max, overlap, ws, k);
    }
    StitchPrefix(t, ws);
    assert t[..|t|] == t;
  }

  /** The longest stretch without a space is the longest word; callers can measure it on the split text. */
  lemma {:induction false} WordsMeasure(words: seq<string>, isSpace: char -> bool, longest: nat)
    requires AreWords(words, isSpace) && isSpace(' ')
    ensures WordsWithin(Join(words), longest) <==> forall i :: 0 <= i < |words| ==> |words[i]| <= longest
  {
    if |words| == 0 {
    } else if |words| == 1 {
      assert Spaceless(words[0], 0, |words[0]|);
    } else {
      var rest := Join(words[1..]);
      WordsMeasure(words[1..], isSpace, longest);
      StretchesOfTwo(words[0], rest, longest);
    }
  }

  lemma StretchesOfTwo(word: string, rest: string, longest: nat)
    requires forall k :: 0 <= k < |word| ==> word[k] != ' '
    ensures WordsWithin(word + " " + rest, longest) <==> |word| <= longest && WordsWithin(rest, longest)
  {
    var t, n := word + " " + rest, |word|;
    if WordsWithin(t, longest) {
      assert Spaceless(t, 0, n);
      forall i: nat, j: nat | Spaceless(rest, i, j)
        ensures j - i <= longest
      {
        assert forall k :: n + 1 + i <= k < n + 1 + j ==> t[k] == rest[k - n - 1];
        assert Spaceless(t, n + 1 + i, n + 1 + j);
      }
    }
    if |word| <= longest && WordsWithin(rest, longest) {
      forall i: nat, j: nat | Spaceless(t, i, j)
        ensures j - i <= longest
      {
        assert t[n] == ' ';
        if i > n {
          assert forall k :: i - n - 1 <= k < j - n - 1 ==> rest[k] == t[k + n + 1];
          assert Spaceless(rest, i - n - 1, j - n - 1);
        }
      }
    }
  }

  // ---- What the slices keep of the text they were made from ----

  predicate ShortWords(words: seq<string>, longest: nat) {
    forall i :: 0 <= i < |words| ==> |words[i]| <= longest
  }

  /** No stretch of the text is longer than `longest`. */
  ghost predicate StretchesWithin(text: string, isSpace: char -> bool, longest: nat) {
    forall i: nat, j: nat :: Stretch(text, isSpace, i, j) ==> j - i <= longest
  }

  lemma StretchesAreWords(text: string, isSpace: char -> bool, longest: nat)
    ensures StretchesWithin(text, isSpace, longest) <==> ShortWords(Split(text, isSpace), longest)
  {
    hide Split, Stretch;
    if StretchesWithin(text, isSpace, longest) {
      forall k | 0 <= k < |Split(text, isSpace)|
        ensures |Split(text, isSpace)[k]| <= longest
      {
        var i, j := WordIsStretch(text, isSpace, k);
        StretchBounds(text, isSpace, i, j);
      }
    }
    if ShortWords(Split(text, isSpace), longest) {
      forall i: nat, j: nat | Stretch(text, isSpace, i, j)
        ensures j - i <= longest
      {
        var k := StretchPlace(text, isSpace, i, j);
        StretchBounds(text, isSpace, i, j);
      }
    }
  }

  lemma StretchBounds(text: string, isSpace: char -> bool, i: nat, j: nat)
    requires Stretch(text, isSpace, i, j)
    ensures i < j <= |text|
  {
  }

  lemma StretchPlace(text: string, isSpace: char -> bool, i: nat, j: nat) returns (k: nat)
    requires Stretch(text, isSpace, i, j)
    ensures k < |Split(text, isSpace)| && Split(text, isSpace)[k] == text[i..j]
  {
    StretchIsWord(text, isSpace, i, j);
    k := |Split(text[..i], isSpace)|;
  }

  lemma NormalizedWords(text: string, isSpace: char -> bool, longest: nat)
    requires isSpace(' ')
    ensures WordsWithin(Normalize(text, isSpace), longest) <==> StretchesWithin(text, isSpace, longest)
  {
    SplitGivesWords(text, isSpace);
    WordsMeasure(Split(text, isSpace), isSpace, longest);
    StretchesAreWords(text, isSpace, longest);
  }

  /** Any text whose words leave the windows room is sliced in finite time. */
  lemma RoomyTextHalts(text: string, isSpace: char -> bool, longest: nat, max: nat, overlap: nat)
    requires isSpace(' ') && max >= 1 && StretchesWithin(text, isSpace, longest)
    requires overlap == 0 || Roomy(longest, max, overlap)
    ensures Halts(Normalize(text, isSpace), max, overlap)
  {
    NormalizedWords(text, isSpace, longest);
    EnoughRoomHalts(Normalize(text, isSpace), longest, max, overlap);
  }

  lemma {:induction false} WordInJoin(words: seq<string>, i: nat) returns (a: nat)
    requires i < |words|
    ensures a + |words[i]| <= |Join(words)| && Join(words)[a..a + |words[i]|] == words[i]
  {
    if i == 0 {
      a := 0;
    } else {
      var b := WordInJoin(words[1..], i - 1);
      a := |words[0]| + 1 + b;
      var rest := Join(words[1..]);
      assert Join(words) == (words[0] + " ") + rest;
      assert Join(words)[a..a + |words[i]|] == rest[b..b + |words[i]|];
    }
  }

  /** Every word of the original text can be read in one of the segments. */
  lemma NoWordIsLost(text: string, max: nat, overlap: nat, isSpace: char -> bool, segments: seq<string>,
                     ws: seq<Window>, longest: nat, i: nat, j: nat) returns (k: nat, m: nat)
    requires isSpace(' ') && WordsFit(longest, max, overlap) && StretchesWithin(text, isSpace, longest)
    requires Sliced(Normalize(text, isSpace), max, overlap, isSpace, segments, ws) && Stretch(text, isSpace, i, j)
    ensures i < j <= |text|
    ensures k < |segments| && m + (j - i) <= |segments[k]| && segments[k][m..m + (j - i)] == text[i..j]
  {
    hide Split, Join, Linked, CutAt, WellSpaced, WordsWithin, Stretch, StretchesWithin;
    StretchBounds(text, isSpace, i, j);
    var words, t := Split(text, isSpace), Normalize(text, isSpace);
    var p := StretchPlace(text, isSpace, i, j);
    NormalizedWords(text, isSpace, longest);
    NormalizeKeepsWords(text, isSpace);
    SplitGivesWords(text, isSpace);
    var a := WordInJoin(words, p);
    if |t| <= max {
      k, m := 0, a;
    } else {
      WordIsSpaceless(words, isSpace, p, t, a);
      k, m := WordInSegment(t, max, overlap, ws, longest, segments, isSpace, a, a + |words[p]|);
    }
  }

  lemma WordIsSpaceless(words: seq<string>, isSpace: char -> bool, i: nat, t: string, a: nat)
    requires AreWords(words, isSpace) && isSpace(' ') && i < |words|
    requires a + |words[i]| <= |t| && t[a..a + |words[i]|] == words[i]
    ensures words[i] != "" && Spaceless(t, a, a + |words[i]|)
  {
  }

  // ---- Exactly when slicing is safe ----

  predicate ReadAt(segment: string, m: nat, word: string) {
    m + |word| <= |segment| && segment[m..m + |word|] == word
  }

  ghost predicate Readable(segments: seq<string>, word: string) {
    exists k: nat, m: nat :: k < |segments| && ReadAt(segments[k], m, word)
  }

  /** The loop ends, and every stretch without a space can be read in one of the segments. */
  ghost predicate SlicesSafely(t: string, max: nat, overlap: nat)
    requires max >= 1
  {
    && Halts(t, max, overlap)
    && forall segments, ws :: Sliced(t, max, overlap, Blank, segments, ws) ==>
         forall i: nat, j: nat :: i < j && Spaceless(t, i, j) ==> Readable(segments, t[i..j])
  }

  lemma FittingIsSafe(t: string, longest: nat, max: nat, overlap: nat)
    requires max >= 1 && WordsFit(longest, max, overlap) && WellSpaced(t, Blank) && WordsWithin(t, longest)
    ensures SlicesSafely(t, max, overlap)
  {
    EnoughRoomHalts(t, longest, max, overlap);
    hide Halts, Linked, CutAt, WellSpaced, WordsWithin;
    forall segments, ws, i: nat, j: nat | Sliced(t, max, overlap, Blank, segments, ws) && i < j && Spaceless(t, i, j)
      ensures Readable(segments, t[i..j])
    {
      if |t| <= max {
        assert ReadAt(segments[0], i, t[i..j]);
      } else {
        var k, m := WordInSegment(t, max, overlap, ws, longest, segments, Blank, i, j);
        assert ReadAt(segments[k], m, t[i..j]);
      }
    }
  }

  /** A letter, a space, and a word as long as a window. */
  function Cleft(max: nat): string {
    "x " + Letters(max)
  }

  lemma CleftWords(max: nat)
    requires max >= 1
    ensures WellSpaced(Cleft(max), Blank) && WordsWithin(Cleft(max), max)
  {
    forall i: nat, j: nat | max < j - i && j <= |Cleft(max)|
      ensures !Spaceless(Cleft(max), i, j)
    {
      assert Cleft(max)[1] == ' ' && i <= 1 < j;
    }
  }

  function CleftWindows(max: nat): seq<Window> {
    [Window(0, 1), Window(1, max + 1), Window(max + 1, max + 2)]
  }

  lemma CleftIsCut(max: nat)
    requires max >= 2
    ensures Windowing(Cleft(max), max, 0, CleftWindows(max))
  {
    var t := Cleft(max);
    assert t[1] == ' ' && forall k :: 1 < k < |t| ==> t[k] == 'x';
    assert LastSpace(t, 0, max) == 1 && LastSpace(t, 1, max + 1) == 1;
  }

  lemma StripDropsSpace(s: string, isSpace: char -> bool)
    requires s != "" && isSpace(s[0])
    ensures |Strip(s, isSpace)| < |s|
  {
    var _, _ := StripParts(s[1..], isSpace);
  }

  /** The long word is cut in two, since its window begins with the space before it. */
  lemma CleftIsLost(max: nat)
    requires max >= 2
    ensures !SlicesSafely(Cleft(max), max, 0)
  {
    var t, ws := Cleft(max), CleftWindows(max);
    CleftIsCut(max);
    var segments := seq(3, k requires 0 <= k < 3 => Strip(t[ws[k].start..ws[k].end], Blank));
    assert Sliced(t, max, 0, Blank, segments, ws);
    assert Spaceless(t, 2, max + 2);
    var _, _ := StripParts(t[0..1], Blank);
    StripDropsSpace(t[1..max + 1], Blank);
    var _, _ := StripParts(t[max + 1..max + 2], Blank);
    assert forall k: nat :: k < |segments| ==> |segments[k]| < max;
    assert !Readable(segments, t[2..max + 2]);
  }

  /**
   * The loop ends and loses no word, on every text whose words have at most `longest` letters, exactly
   * when the words fit.
   */
  lemma SafeExactly(longest: nat, max: nat, overlap: nat)
    requires longest >= 1 && max >= 2
    ensures WordsFit(longest, max, overlap) <==>
            forall t :: WellSpaced(t, Blank) && WordsWithin(t, longest) ==> SlicesSafely(t, max, overlap)
  {
    if WordsFit(longest, max, overlap) {
      forall t | WellSpaced(t, Blank) && WordsWithin(t, longest)
        ensures SlicesSafely(t, max, overlap)
      {
        FittingIsSafe(t, longest, max, overlap);
      }
    } else if overlap > 0 {
      var t := EndlessText(longest, max, overlap);
      assert !SlicesSafely(t, max, overlap);
    } else {
      CleftWords(max);
      CleftIsLost(max);
    }
  }
}
