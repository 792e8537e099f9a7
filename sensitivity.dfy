/** The keyword sensitivity scorer: a fixed table of French keywords with
    integer weights; a message scores the sum of the weights of the keywords
    that occur in its lower-cased text. */
module Sensitivity {

  datatype Keyword = Keyword(word: string, weight: nat)

  /** The fixed keyword table, in the source's iteration order. */
  const Keywords: seq<Keyword> := [
    Keyword("sexy", 1), Keyword("chaud", 1), Keyword("nue", 2), Keyword("seins", 2),
    Keyword("cul", 2), Keyword("baise", 3), Keyword("coucher", 2), Keyword("lit", 1),
    Keyword("corps", 1), Keyword("photos", 1), Keyword("nudes", 2), Keyword("sexe", 3)
  ]

  /** The sum of all weights of the table: the largest score any message can get. */
  const MaxScore: nat := 21

  /** ASCII lower-casing of one character. */
  function LowerChar(c: char): (r: char)
    ensures 'A' <= c <= 'Z' ==> 'a' <= r <= 'z' && r as int - 'a' as int == c as int - 'A' as int
    ensures !('A' <= c <= 'Z') ==> r == c
  {
    if 'A' <= c <= 'Z' then (c as int - 'A' as int + 'a' as int) as char else c
  }

  /** ASCII lower-casing of a message, character by character. */
  function Lower(s: string): (r: string)
    ensures |r| == |s|
    ensures forall i :: 0 <= i < |s| ==> r[i] == LowerChar(s[i])
  {
    seq(|s|, i requires 0 <= i < |s| => LowerChar(s[i]))
  }

  /** `k` occurs in `s` starting at position `i`. */
  predicate OccursAt(s: string, k: string, i: int)
  {
    0 <= i && i + |k| <= |s| && s[i..i + |k|] == k
  }

  /** Substring test, written so that it can be computed (Python's `in` on strings).
      A keyword is only found in a text at least as long, and always at its start. */
  function Contains(s: string, k: string): (r: bool)
    ensures r ==> |k| <= |s|
    ensures k <= s ==> r
    decreases |s|
  {
    k <= s || (|s| > 0 && Contains(s[1..], k))
  }

  /** Slicing after dropping the first character is slicing one position later. */
  lemma SliceShift(s: string, a: int, b: int)
    requires 0 <= a <= b && b + 1 <= |s|
    ensures s[1..][a..b] == s[a + 1..b + 1]
  {
    assert |s[1..][a..b]| == |s[a + 1..b + 1]|;
    forall j | 0 <= j < b - a
      ensures s[1..][a..b][j] == s[a + 1..b + 1][j]
    {
    }
  }

  /** `Contains` holds exactly when the keyword occurs at some position. */
  lemma {:induction false} ContainsIff(s: string, k: string)
    ensures Contains(s, k) <==> exists i :: OccursAt(s, k, i)
    decreases |s|
  {
    if k <= s {
      assert OccursAt(s, k, 0);
    } else if |s| == 0 {
      assert forall i :: !OccursAt(s, k, i);
    } else {
      ContainsIff(s[1..], k);
      if Contains(s[1..], k) {
        var i :| OccursAt(s[1..], k, i);
        SliceShift(s, i, i + |k|);
        assert OccursAt(s, k, i + 1);
      } else {
        assert !OccursAt(s, k, 0);
        forall i | 0 < i
          ensures OccursAt(s, k, i) == OccursAt(s[1..], k, i - 1)
        {
          if i + |k| <= |s| {
            SliceShift(s, i - 1, i - 1 + |k|);
          }
        }
      }
    }
  }

  /** The sum of the weights of the entries of `table` whose word occurs in `s`;
      each entry contributes at most once, so the sum never exceeds the table's
      total weight. */
  function MatchScore(s: string, table: seq<Keyword>): (r: nat)
    ensures r <= TotalWeight(table)
    decreases |table|
  {
    if table == [] then 0
    else
      var last := table[|table| - 1];
      MatchScore(s, table[..|table| - 1]) + (if Contains(s, last.word) then last.weight else 0)
  }

  /** The sum of all weights of a table. */
  function TotalWeight(table: seq<Keyword>): nat
    decreases |table|
  {
    if table == [] then 0 else TotalWeight(table[..|table| - 1]) + table[|table| - 1].weight
  }

  /** No keyword of the table occurs in the lower-cased message. */
  predicate NoKeyword(message: string)
  {
    forall i :: 0 <= i < |Keywords| ==> !Contains(Lower(message), Keywords[i].word)
  }

  /** With positive weights, the score is zero exactly when no word of the table occurs. */
  lemma {:induction false} MatchScoreZeroIff(s: string, table: seq<Keyword>)
    requires forall i :: 0 <= i < |table| ==> table[i].weight > 0
    ensures MatchScore(s, table) == 0 <==> forall i :: 0 <= i < |table| ==> !Contains(s, table[i].word)
    decreases |table|
  {
    if table != [] {
      var init := table[..|table| - 1];
      assert forall i :: 0 <= i < |init| ==> init[i] == table[i];
      MatchScoreZeroIff(s, init);
    }
  }

  /** Every table entry whose word occurs contributes its weight; two different
      entries that both occur contribute both weights. */
  lemma {:induction false} MatchScoreAtLeast(s: string, table: seq<Keyword>, i: nat, j: nat)
    requires i < |table| && j < |table| && i != j
    requires Contains(s, table[i].word) && Contains(s, table[j].word)
    ensures MatchScore(s, table) >= table[i].weight + table[j].weight
    decreases |table|
  {
    var n := |table| - 1;
    var init := table[..n];
    if i == n {
      assert init[j] == table[j];
      MatchScoreAtLeastOne(s, init, j);
    } else if j == n {
      assert init[i] == table[i];
      MatchScoreAtLeastOne(s, init, i);
    } else {
      assert init[i] == table[i] && init[j] == table[j];
      MatchScoreAtLeast(s, init, i, j);
    }
  }

  lemma {:induction false} MatchScoreAtLeastOne(s: string, table: seq<Keyword>, i: nat)
    requires i < |table| && Contains(s, table[i].word)
    ensures MatchScore(s, table) >= table[i].weight
    decreases |table|
  {
    var n := |table| - 1;
    if i < n {
      var init := table[..n];
      assert init[i] == table[i];
      MatchScoreAtLeastOne(s, init, i);
    }
  }

  /** The weights of the first four entries add up to 6. */
  lemma TotalWeightOfFirstFour()
    ensures TotalWeight(Keywords[..4]) == 6
  {
    var t := Keywords;
    assert TotalWeight(t[..1]) == 1 by { assert t[..1][..0] == []; }
    assert TotalWeight(t[..2]) == 2 by { assert t[..2][..1] == t[..1]; }
    assert TotalWeight(t[..3]) == 4 by { assert t[..3][..2] == t[..2]; }
    assert t[..4][..3] == t[..3];
  }

  /** The weights of the first eight entries add up to 14. */
  lemma TotalWeightOfFirstEight()
    ensures TotalWeight(Keywords[..8]) == 14
  {
    var t := Keywords;
    TotalWeightOfFirstFour();
    assert TotalWeight(t[..5]) == 8 by { assert t[..5][..4] == t[..4]; }
    assert TotalWeight(t[..6]) == 11 by { assert t[..6][..5] == t[..5]; }
    assert TotalWeight(t[..7]) == 13 by { assert t[..7][..6] == t[..6]; }
    assert t[..8][..7] == t[..7];
  }

  lemma TotalWeightOfKeywords()
    ensures TotalWeight(Keywords) == MaxScore
  {
    var t := Keywords;
    TotalWeightOfFirstEight();
    assert TotalWeight(t[..9]) == 15 by { assert t[..9][..8] == t[..8]; }
    assert TotalWeight(t[..10]) == 16 by { assert t[..10][..9] == t[..9]; }
    assert TotalWeight(t[..11]) == 18 by { assert t[..11][..10] == t[..10]; }
    assert t[..12][..11] == t[..11];
    assert t[..12] == t;
  }

  /** The sensitivity score of a message: between 0 and 21, and 0 exactly when
      no keyword occurs. */
  function Score(message: string): (r: nat)
    ensures r <= MaxScore
    ensures r == 0 <==> NoKeyword(message)
  {
    TotalWeightOfKeywords();
    MatchScoreZeroIff(Lower(message), Keywords);
    MatchScore(Lower(message), Keywords)
  }

  /** A message whose lower-cased text holds both "nue" and "seins" scores at least 4,
      which is in the top tier. */
  lemma NueAndSeinsScoreAtLeastFour(message: string)
    requires Contains(Lower(message), "nue") && Contains(Lower(message), "seins")
    ensures Score(message) >= 4
  {
    MatchScoreAtLeast(Lower(message), Keywords, 2, 3);
  }

  /** The scorer as the source runs it: one pass over the table, accumulating
      the weight of every keyword found in the lower-cased message. */
  method DetectScore(message: string) returns (score: nat)
    ensures score == Score(message)
    ensures score <= MaxScore
    ensures score == 0 <==> NoKeyword(message)
  {
    var lowered := Lower(message);
    score := 0;
    var i := 0;
    while i < |Keywords|
      invariant 0 <= i <= |Keywords|
      invariant score == MatchScore(lowered, Keywords[..i])
    {
      var entry := Keywords[i];
      assert Keywords[..i + 1][..i] == Keywords[..i];
      if Contains(lowered, entry.word) {
        score := score + entry.weight;
      }
      i := i + 1;
    }
    assert Keywords[..i] == Keywords;
  }
}
