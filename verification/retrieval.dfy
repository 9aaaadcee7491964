/**
 * Relevance recall over the older part of the transcript: every user message
 * outside the trailing window is scored against the query by the Jaccard index
 * of their lower-cased character sets, paired with the assistant reply that
 * follows it, ranked by score (stable on ties), cut to the top k and rendered
 * as numbered blocks.
 */
module Retrieval {
  import opened Slices
  import opened Models

  /**
   * A kept candidate: the index of its user message in the searchable history
   * (its anchor), its similarity score and its "User: ... / AI: ..." text.
   */
  datatype Scored = Scored(anchor: nat, score: real, text: string)

  /** The set of characters of `s` after lower-casing, `set(s.lower())`. */
  function CharSet(s: string, lower: char -> char): set<char> {
    set i | 0 <= i < |s| :: lower(s[i])
  }

  lemma CharSetNonEmpty(s: string, lower: char -> char)
    requires s != []
    ensures CharSet(s, lower) != {}
  {
    assert lower(s[0]) in CharSet(s, lower);
  }

  lemma IntersectionWithinUnion(a: set<char>, b: set<char>)
    ensures |a * b| <= |a + b|
  {
    var i, u := a * b, a + b;
    assert u == i + (u - i);
    assert i !! (u - i);
  }

  /** |a ∩ b| / |a ∪ b|, an exact rational. */
  function Jaccard(a: set<char>, b: set<char>): (r: real)
    requires a + b != {}
    ensures 0.0 <= r <= 1.0
  {
    IntersectionWithinUnion(a, b);
    (|a * b| as real) / (|a + b| as real)
  }

  lemma RatioAbove(x: real, y: real)
    requires y > 0.0
    ensures x / y > 0.05 <==> 20.0 * x > y
  {
    var q := x / y;
    assert x == q * y;
    assert 20.0 * x - y == (20.0 * q - 1.0) * y;
  }

  /** The float test `score > 0.05` is the integer test 20·|a ∩ b| > |a ∪ b|. */
  lemma JaccardThreshold(a: set<char>, b: set<char>)
    requires a + b != {}
    ensures Jaccard(a, b) > 0.05 <==> 20 * |a * b| > |a + b|
  {
    RatioAbove(|a * b| as real, |a + b| as real);
  }

  /**
   * The text of the pair anchored at user message `i`: the user line, followed
   * by the assistant line when the next message of the searchable history is
   * an assistant message.
   */
  function PairText(messages: seq<Message>, history: seq<Message>, i: nat): string
    requires i < |history|
  {
    var user := "User: " + history[i].content;
    if i + 1 < |messages| && i + 1 < |history| && history[i + 1].AI? then
      user + "\nAI: " + history[i + 1].content
    else
      user
  }

  /**
   * Within a searchable prefix the bound on the whole transcript never
   * decides anything: the assistant line is added exactly when the next
   * history entry is an assistant message.
   */
  lemma PairTextShape(messages: seq<Message>, history: seq<Message>, i: nat)
    requires i < |history| <= |messages|
    ensures var user := "User: " + history[i].content;
      && (i + 1 < |history| && history[i + 1].AI? ==> PairText(messages, history, i) == user + "\nAI: " + history[i + 1].content)
      && (!(i + 1 < |history| && history[i + 1].AI?) ==> PairText(messages, history, i) == user)
  {
  }

  /** History entry `i` is a user message whose score clears the threshold. */
  predicate Qualifies(history: seq<Message>, qs: set<char>, i: nat, lower: char -> char)
    requires i < |history|
  {
    && history[i].Human?
    && qs + CharSet(history[i].content, lower) != {}
    && Jaccard(qs, CharSet(history[i].content, lower)) > 0.05
  }

  function Entry(messages: seq<Message>, history: seq<Message>, qs: set<char>, i: nat, lower: char -> char): Scored
    requires i < |history| && Qualifies(history, qs, i, lower)
  {
    Scored(i, Jaccard(qs, CharSet(history[i].content, lower)), PairText(messages, history, i))
  }

  /** The candidates found among the first `k` history entries, in history order. */
  function Candidates(messages: seq<Message>, history: seq<Message>, qs: set<char>, k: nat, lower: char -> char)
    : seq<Scored>
    requires k <= |history|
  {
    if k == 0 then []
    else
      Candidates(messages, history, qs, k - 1, lower)
      + (if Qualifies(history, qs, k - 1, lower) then [Entry(messages, history, qs, k - 1, lower)] else [])
  }

  /** Exactly the qualifying entries, each once, in increasing anchor order. */
  lemma {:induction false} CandidatesExactly(
    messages: seq<Message>, history: seq<Message>, qs: set<char>, k: nat, lower: char -> char)
    requires k <= |history|
    ensures AnchorsIncreasing(Candidates(messages, history, qs, k, lower))
    ensures forall c | c in Candidates(messages, history, qs, k, lower) ::
      c.anchor < k && Qualifies(history, qs, c.anchor, lower) && c == Entry(messages, history, qs, c.anchor, lower)
    ensures forall i | 0 <= i < k && Qualifies(history, qs, i, lower) ::
      Entry(messages, history, qs, i, lower) in Candidates(messages, history, qs, k, lower)
  {
    CandidatesSound(messages, history, qs, k, lower);
    CandidatesComplete(messages, history, qs, k, lower);
  }

  /** Each candidate is the entry of a qualifying index below `k`, and anchors increase. */
  lemma {:induction false} CandidatesSound(
    messages: seq<Message>, history: seq<Message>, qs: set<char>, k: nat, lower: char -> char)
    requires k <= |history|
    ensures AnchorsIncreasing(Candidates(messages, history, qs, k, lower))
    ensures forall c | c in Candidates(messages, history, qs, k, lower) ::
      c.anchor < k && Qualifies(history, qs, c.anchor, lower) && c == Entry(messages, history, qs, c.anchor, lower)
  {
    if k > 0 {
      CandidatesSound(messages, history, qs, k - 1, lower);
      var prev := Candidates(messages, history, qs, k - 1, lower);
      if Qualifies(history, qs, k - 1, lower) {
        var e := Entry(messages, history, qs, k - 1, lower);
        assert Candidates(messages, history, qs, k, lower) == prev + [e];
      } else {
        assert Candidates(messages, history, qs, k, lower) == prev;
      }
    }
  }

  /** Every qualifying index below `k` has its entry among the candidates. */
  lemma {:induction false} CandidatesComplete(
    messages: seq<Message>, history: seq<Message>, qs: set<char>, k: nat, lower: char -> char)
    requires k <= |history|
    ensures forall i | 0 <= i < k && Qualifies(history, qs, i, lower) ::
      Entry(messages, history, qs, i, lower) in Candidates(messages, history, qs, k, lower)
  {
    if k > 0 {
      CandidatesComplete(messages, history, qs, k - 1, lower);
      var prev := Candidates(messages, history, qs, k - 1, lower);
      var cur := Candidates(messages, history, qs, k, lower);
      assert forall c | c in prev :: c in cur;
    }
  }

  /** `a` is ranked before `b`: higher score first, earlier anchor on ties. */
  predicate Precedes(a: Scored, b: Scored) {
    a.score > b.score || (a.score == b.score && a.anchor < b.anchor)
  }

  predicate Ranked(s: seq<Scored>) {
    forall i, j :: 0 <= i < j < |s| ==> Precedes(s[i], s[j])
  }

  predicate AnchorsIncreasing(s: seq<Scored>) {
    forall i, j :: 0 <= i < j < |s| ==> s[i].anchor < s[j].anchor
  }

  /** Places `x` after every element whose score is at least its own. */
  function Insert(x: Scored, s: seq<Scored>): (r: seq<Scored>)
    ensures |r| == |s| + 1
    ensures multiset(r) == multiset(s) + multiset{x}
  {
    if s == [] then [x]
    else if s[0].score >= x.score then
      assert s == [s[0]] + s[1..];
      [s[0]] + Insert(x, s[1..])
    else [x] + s
  }

  /**
   * The stable descending sort by score: each element in turn is inserted
   * after all earlier elements of equal or higher score.
   */
  function SortByScore(s: seq<Scored>): (r: seq<Scored>)
    ensures |r| == |s|
    ensures multiset(r) == multiset(s)
  {
    if s == [] then []
    else
      assert s == s[..|s| - 1] + [s[|s| - 1]];
      Insert(s[|s| - 1], SortByScore(s[..|s| - 1]))
  }

  lemma {:induction false} InsertRanked(x: Scored, s: seq<Scored>)
    requires Ranked(s)
    requires forall e | e in s :: e.anchor < x.anchor
    ensures Ranked(Insert(x, s))
  {
    if s != [] && s[0].score >= x.score {
      var t := s[1..];
      assert forall e | e in t :: e in s;
      InsertRanked(x, t);
      var r := Insert(x, s);
      assert r == [s[0]] + Insert(x, t);
      forall j | 0 < j < |r|
        ensures Precedes(r[0], r[j])
      {
        assert r[j] in multiset(Insert(x, t));
        assert r[j] in t || r[j] == x;
        if r[j] in t {
          var k :| 0 <= k < |t| && t[k] == r[j];
          assert s[k + 1] == r[j];
        }
      }
    } else if s != [] {
      var r := Insert(x, s);
      forall j | 0 < j < |r|
        ensures Precedes(r[0], r[j])
      {
        assert r[j] == s[j - 1];
        if j > 1 {
          assert Precedes(s[0], s[j - 1]);
        }
      }
    }
  }

  /** With distinct increasing anchors, the sort ranks by (score desc, anchor asc). */
  lemma {:induction false} SortByScoreRanked(s: seq<Scored>)
    requires AnchorsIncreasing(s)
    ensures Ranked(SortByScore(s))
  {
    if s != [] {
      var init, x := s[..|s| - 1], s[|s| - 1];
      SortByScoreRanked(init);
      forall e | e in SortByScore(init)
        ensures e.anchor < x.anchor
      {
        assert e in multiset(SortByScore(init));
        var k :| 0 <= k < |init| && init[k] == e;
      }
      InsertRanked(x, SortByScore(init));
    }
  }

  function DigitChar(d: nat): (r: char)
    requires d < 10
    ensures '0' <= r <= '9' && DigitValue(r) == d
  {
    "0123456789"[d]
  }

  /** The value of a decimal digit character. */
  function DigitValue(c: char): nat
    requires '0' <= c <= '9'
  {
    c as int - '0' as int
  }

  predicate AllDigits(s: string) {
    forall i | 0 <= i < |s| :: '0' <= s[i] <= '9'
  }

  /** The number a string of decimal digits denotes, most significant digit first. */
  function DigitsValue(s: string): nat
    requires AllDigits(s)
  {
    if s == [] then 0 else DigitsValue(s[..|s| - 1]) * 10 + DigitValue(s[|s| - 1])
  }

  /**
   * Decimal rendering of a natural number, as an f-string prints an int:
   * digits only, no leading zero, and denoting exactly `n`.
   */
  function NatToString(n: nat): (r: string)
    ensures |r| > 0 && AllDigits(r)
    ensures DigitsValue(r) == n
    ensures |r| > 1 ==> r[0] != '0'
  {
    if n < 10 then [DigitChar(n)]
    else
      var init := NatToString(n / 10);
      var r := init + [DigitChar(n % 10)];
      assert r[..|r| - 1] == init;
      r
  }

  /** One numbered result block; `fmt` renders the score with two decimals. */
  function Block(number: nat, c: Scored, fmt: real -> string): string {
    "--- 相关片段 " + NatToString(number) + " (相似度: " + fmt(c.score) + ") ---\n" + c.text + "\n"
  }

  /** The blocks of `items`, numbered from 1, concatenated. */
  function Render(items: seq<Scored>, fmt: real -> string): (r: string)
    ensures r == "" <==> items == []
  {
    if items == [] then ""
    else Render(items[..|items| - 1], fmt) + Block(|items|, items[|items| - 1], fmt)
  }

  /** The pairs retrieval returns, best first. */
  function Selected(messages: seq<Message>, queryText: string, excludeLastN: int, topK: int, lower: char -> char)
    : seq<Scored>
  {
    if queryText == [] || |messages| <= excludeLastN then []
    else
      var history := Prefix(messages, -excludeLastN);
      var qs := CharSet(queryText, lower);
      if qs == {} then []
      else Prefix(SortByScore(Candidates(messages, history, qs, |history|, lower)), topK)
  }

  /** `retrieve_relevant_messages` as a function of its inputs. */
  function Recall(
    messages: seq<Message>, queryText: string, excludeLastN: int, topK: int,
    lower: char -> char, fmt: real -> string): (r: string)
    ensures queryText == [] || |messages| <= excludeLastN ==> r == ""
    ensures r == "" <==> Selected(messages, queryText, excludeLastN, topK, lower) == []
  {
    Render(Selected(messages, queryText, excludeLastN, topK, lower), fmt)
  }

  /**
   * Retrieval is empty exactly when the query is empty, the transcript is not
   * longer than the excluded window, or no user message in the searchable
   * prefix clears the threshold (for any top_k of at least 1).
   */
  lemma RecallEmptyIff(
    messages: seq<Message>, queryText: string, excludeLastN: int, topK: int,
    lower: char -> char, fmt: real -> string)
    requires topK >= 1
    ensures var history := Prefix(messages, -excludeLastN);
      Recall(messages, queryText, excludeLastN, topK, lower, fmt) == "" <==>
        || queryText == []
        || |messages| <= excludeLastN
        || forall i | 0 <= i < |history| :: !Qualifies(history, CharSet(queryText, lower), i, lower)
  {
    var history := Prefix(messages, -excludeLastN);
    if queryText != [] && |messages| > excludeLastN {
      var qs := CharSet(queryText, lower);
      CharSetNonEmpty(queryText, lower);
      var cands := Candidates(messages, history, qs, |history|, lower);
      CandidatesExactly(messages, history, qs, |history|, lower);
      var sorted := SortByScore(cands);
      if cands != [] {
        assert cands[0] in multiset(sorted);
        assert Qualifies(history, qs, cands[0].anchor, lower);
      } else {
        assert multiset(sorted) == multiset{};
      }
    }
  }

  /**
   * Every returned pair is anchored at a user message of the searchable
   * prefix (so, for a non-negative window, outside the last `excludeLastN`
   * messages), carries that message's Jaccard score, which lies in (0.05, 1],
   * and carries its pair text.
   */
  lemma SelectedSound(
    messages: seq<Message>, queryText: string, excludeLastN: int, topK: int, lower: char -> char)
    ensures var history := Prefix(messages, -excludeLastN);
      forall c | c in Selected(messages, queryText, excludeLastN, topK, lower) ::
        && c.anchor < |history|
        && (excludeLastN >= 0 ==> c.anchor + excludeLastN < |messages|)
        && messages[c.anchor] == history[c.anchor]
        && history[c.anchor].Human?
        && var ms := CharSet(history[c.anchor].content, lower);
           var qs := CharSet(queryText, lower);
           && c.score == Jaccard(qs, ms)
           && 0.05 < c.score <= 1.0
           && 20 * |qs * ms| > |qs + ms|
           && c.text == PairText(messages, history, c.anchor)
  {
    var history := Prefix(messages, -excludeLastN);
    var sel := Selected(messages, queryText, excludeLastN, topK, lower);
    if queryText != [] && |messages| > excludeLastN {
      var qs := CharSet(queryText, lower);
      if qs != {} {
        var cands := Candidates(messages, history, qs, |history|, lower);
        CandidatesExactly(messages, history, qs, |history|, lower);
        var sorted := SortByScore(cands);
        forall c | c in sel
          ensures c in cands
        {
          assert c in sorted;
          assert c in multiset(sorted);
        }
        forall c | c in sel
          ensures 20 * |qs * CharSet(history[c.anchor].content, lower)| > |qs + CharSet(history[c.anchor].content, lower)|
        {
          JaccardThreshold(qs, CharSet(history[c.anchor].content, lower));
        }
      }
    }
  }

  /**
   * The returned pairs are ranked (score descending, ties in transcript
   * order), there are min(top_k, #candidates) of them, and every candidate
   * left out is ranked below every pair returned.
   */
  lemma SelectedRanked(
    messages: seq<Message>, queryText: string, excludeLastN: int, topK: int, lower: char -> char)
    requires queryText != [] && |messages| > excludeLastN && topK >= 0
    ensures var history := Prefix(messages, -excludeLastN);
      var qs := CharSet(queryText, lower);
      var cands := Candidates(messages, history, qs, |history|, lower);
      var sel := Selected(messages, queryText, excludeLastN, topK, lower);
      && Ranked(sel)
      && |sel| == Min(topK, |cands|)
      && multiset(sel) <= multiset(cands)
      && forall c, s | c in cands && c !in sel && s in sel :: Precedes(s, c)
  {
    var history := Prefix(messages, -excludeLastN);
    var qs := CharSet(queryText, lower);
    CharSetNonEmpty(queryText, lower);
    var cands := Candidates(messages, history, qs, |history|, lower);
    CandidatesExactly(messages, history, qs, |history|, lower);
    var sel := Selected(messages, queryText, excludeLastN, topK, lower);
    assert sel == Prefix(SortByScore(cands), topK);
    TopOfSort(cands, |sel|);
  }

  /** The first `n` elements of the sort are ranked and beat every element of the input they leave out. */
  lemma TopOfSort(cands: seq<Scored>, n: nat)
    requires AnchorsIncreasing(cands) && n <= |cands|
    ensures var sel := SortByScore(cands)[..n];
      && Ranked(sel)
      && multiset(sel) <= multiset(cands)
      && forall c, s | c in cands && c !in sel && s in sel :: Precedes(s, c)
  {
    var sorted := SortByScore(cands);
    SortByScoreRanked(cands);
    PrefixOfRanked(sorted, n);
    forall c | c in cands
      ensures c in sorted
    {
      assert c in multiset(cands);
    }
  }

  /** A prefix of a ranked sequence is ranked, and precedes whatever it leaves out. */
  lemma PrefixOfRanked(sorted: seq<Scored>, n: nat)
    requires Ranked(sorted) && n <= |sorted|
    ensures Ranked(sorted[..n])
    ensures multiset(sorted[..n]) <= multiset(sorted)
    ensures forall c, s | c in sorted && c !in sorted[..n] && s in sorted[..n] :: Precedes(s, c)
  {
    var sel := sorted[..n];
    assert sorted == sel + sorted[n..];
    assert multiset(sorted) == multiset(sel) + multiset(sorted[n..]);
    forall c, s | c in sorted && c !in sel && s in sel
      ensures Precedes(s, c)
    {
      var j :| 0 <= j < |sorted| && sorted[j] == c;
      var i :| 0 <= i < |sel| && sel[i] == s;
      assert j >= n;
    }
  }

  /**
   * The retrieval loop of the source: scan the searchable history once,
   * collect scored pairs, sort them, keep the first `topK`, then render.
   */
  method RetrieveRelevantMessages(
    messages: seq<Message>, queryText: string, excludeLastN: int, topK: int,
    lower: char -> char, fmt: real -> string) returns (r: string)
    ensures r == Recall(messages, queryText, excludeLastN, topK, lower, fmt)
  {
    if queryText == [] || |messages| <= excludeLastN {
      return "";
    }
    var history := Prefix(messages, -excludeLastN);
    var queryTokens := CharSet(queryText, lower);
    if queryTokens == {} {
      return "";
    }
    var scored := ScoreHistory(messages, history, queryTokens, lower);
    scored := SortByScore(scored);
    var topItems := Prefix(scored, topK);
    assert topItems == Selected(messages, queryText, excludeLastN, topK, lower);
    if topItems == [] {
      return "";
    }
    r := FormatBlocks(topItems, fmt);
  }

  /**
   * Steps 1-2 of retrieval: walk the searchable history once and collect a
   * scored pair for every user message that clears the threshold.
   */
  method ScoreHistory(messages: seq<Message>, history: seq<Message>, queryTokens: set<char>, lower: char -> char)
    returns (scored: seq<Scored>)
    ensures scored == Candidates(messages, history, queryTokens, |history|, lower)
  {
    scored := [];
    var i := 0;
    while i < |history|
      invariant 0 <= i <= |history|
      invariant scored == Candidates(messages, history, queryTokens, i, lower)
    {
      var msg := history[i];
      if msg.Human? {
        var msgTokens := CharSet(msg.content, lower);
        var union := queryTokens + msgTokens;
        if union != {} {
          var score := Jaccard(queryTokens, msgTokens);
          if score > 0.05 {
            var pairText := "User: " + msg.content;
            if i + 1 < |messages| {
              if i + 1 < |history| && history[i + 1].AI? {
                pairText := pairText + "\nAI: " + history[i + 1].content;
              }
            }
            assert Qualifies(history, queryTokens, i, lower);
            assert Scored(i, score, pairText) == Entry(messages, history, queryTokens, i, lower);
            scored := scored + [Scored(i, score, pairText)];
          }
        }
      }
      i := i + 1;
    }
  }

  /** Step 4 of retrieval: append one numbered block per kept pair. */
  method FormatBlocks(topItems: seq<Scored>, fmt: real -> string) returns (result: string)
    ensures result == Render(topItems, fmt)
  {
    result := "";
    var idx := 0;
    while idx < |topItems|
      invariant 0 <= idx <= |topItems|
      invariant result == Render(topItems[..idx], fmt)
    {
      assert topItems[..idx + 1][..idx] == topItems[..idx];
      result := result + Block(idx + 1, topItems[idx], fmt);
      idx := idx + 1;
    }
    assert topItems[..idx] == topItems;
  }
}
