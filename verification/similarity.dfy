/**
 * Edit-distance similarity of a guess against a reference string
 * (lib/calculateSimilarity.ts).
 *
 * `Distance` is the textbook recursive Levenshtein distance over prefixes:
 * the cheapest of deleting the last character of `a`, inserting the last
 * character of `b`, or substituting one for the other (free when equal).
 * The source fills a dynamic-programming table whose step takes the diagonal
 * alone when the last characters agree; `Recurrence` shows that step agrees
 * with the textbook one, and the method `Levenshtein` fills the table in
 * place and is proved to return `Distance`.
 */
module Similarity {

  /** `Math.max` of two lengths. */
  function Max(x: nat, y: nat): (m: nat)
    ensures m >= x && m >= y && (m == x || m == y)
  {
    if x >= y then x else y
  }

  /** The absolute difference of two lengths. */
  function Diff(x: nat, y: nat): (d: nat)
    ensures d + Min2(x, y) == Max(x, y)
  {
    if x >= y then x - y else y - x
  }

  /** The smaller of two lengths. */
  function Min2(x: nat, y: nat): (m: nat)
    ensures m <= x && m <= y && (m == x || m == y)
  {
    if x <= y then x else y
  }

  /** `Math.min` of three table cells. */
  function Min3(x: int, y: int, z: int): (m: int)
    ensures m <= x && m <= y && m <= z
    ensures m == x || m == y || m == z
  {
    if x <= y && x <= z then x else if y <= z then y else z
  }

  /** `s` without its last character. */
  function Init(s: string): string
    requires |s| > 0
  {
    s[..|s| - 1]
  }

  function Last(s: string): char
    requires |s| > 0
  {
    s[|s| - 1]
  }

  /**
   * Levenshtein distance: the least number of single-character insertions,
   * deletions and substitutions turning `a` into `b`. Against the empty
   * string it is the other string's length; in general it lies between the
   * difference of the lengths and the larger length.
   */
  function Distance(a: string, b: string): (d: nat)
    decreases |a| + |b|
    ensures Diff(|a|, |b|) <= d <= Max(|a|, |b|)
  {
    if |a| == 0 then |b|
    else if |b| == 0 then |a|
    else
      Min3(Distance(Init(a), b) + 1,
           Distance(a, Init(b)) + 1,
           Distance(Init(a), Init(b)) + (if Last(a) == Last(b) then 0 else 1))
  }

  /** Dropping the last character of the first string lowers the distance by at most one. */
  lemma DropLastLeft(a: string, b: string)
    requires |a| > 0
    ensures Distance(a, b) <= Distance(Init(a), b) + 1
  {
  }

  /** Dropping the last character of the second string raises the distance by at most one. */
  lemma {:induction false} DropLastRightGrows(a: string, b: string)
    requires |b| > 0
    ensures Distance(a, Init(b)) <= Distance(a, b) + 1
    decreases |a|
  {
    if |a| > 0 {
      DropLastLeft(a, Init(b));
      DropLastRightGrows(Init(a), b);
    }
  }

  /** The distance does not depend on which string is the guess. */
  lemma {:induction false} Symmetric(a: string, b: string)
    ensures Distance(a, b) == Distance(b, a)
    decreases |a| + |b|
  {
    if |a| > 0 && |b| > 0 {
      Symmetric(Init(a), b);
      Symmetric(a, Init(b));
      Symmetric(Init(a), Init(b));
    }
  }

  /** Dropping the last character of the first string raises the distance by at most one. */
  lemma {:induction false} DropLastLeftGrows(a: string, b: string)
    requires |a| > 0
    ensures Distance(Init(a), b) <= Distance(a, b) + 1
  {
    Symmetric(Init(a), b);
    Symmetric(a, b);
    DropLastRightGrows(b, a);
  }

  /**
   * The step of the table fill: when the last characters agree the distance
   * is that of the two shorter prefixes (the diagonal alone); otherwise it is
   * one more than the least of the three neighbouring distances.
   */
  lemma Recurrence(a: string, b: string)
    requires |a| > 0 && |b| > 0
    ensures Distance(a, b) ==
              if Last(a) == Last(b) then Distance(Init(a), Init(b))
              else Min3(Distance(Init(a), b), Distance(a, Init(b)), Distance(Init(a), Init(b))) + 1
  {
    if Last(a) == Last(b) {
      DropLastRightGrows(Init(a), b);
      DropLastLeftGrows(a, Init(b));
    }
  }

  /** Equal strings are at distance zero. */
  lemma {:induction false} Identity(s: string)
    ensures Distance(s, s) == 0
    decreases |s|
  {
    if |s| > 0 {
      Identity(Init(s));
    }
  }

  /** Distance zero means the strings are equal, and only then. */
  lemma {:induction false} ZeroIffEqual(a: string, b: string)
    ensures Distance(a, b) == 0 <==> a == b
    decreases |a| + |b|
  {
    if |a| > 0 && |b| > 0 && Distance(a, b) == 0 {
      ZeroIffEqual(Init(a), Init(b));
      assert a == Init(a) + [Last(a)];
      assert b == Init(b) + [Last(b)];
    } else if a == b {
      Identity(a);
    }
  }

  /** What cell (r, c) of the table is meant to hold: the distance between s1[..r] and s2[..c]. */
  ghost function Cell(s1: string, s2: string, r: nat, c: nat): nat
    requires r <= |s1| && c <= |s2|
  {
    Distance(s1[..r], s2[..c])
  }

  /** `Recurrence` restated on the cells of the table. */
  lemma CellStep(s1: string, s2: string, i: nat, j: nat)
    requires 0 < i <= |s1| && 0 < j <= |s2|
    ensures Cell(s1, s2, i, j) ==
              if s1[i - 1] == s2[j - 1] then Cell(s1, s2, i - 1, j - 1)
              else Min3(Cell(s1, s2, i - 1, j), Cell(s1, s2, i, j - 1), Cell(s1, s2, i - 1, j - 1)) + 1
  {
    var a, b := s1[..i], s2[..j];
    assert Init(a) == s1[..i - 1] && Last(a) == s1[i - 1];
    assert Init(b) == s2[..j - 1] && Last(b) == s2[j - 1];
    Recurrence(a, b);
  }

  /**
   * The inner `levenshtein`: allocates a (|s1|+1) x (|s2|+1) table of zeros,
   * sets its first column and first row, then fills it row by row; cell
   * (i, j) ends up holding the distance between the prefixes s1[..i] and
   * s2[..j], and the bottom-right cell is returned.
   */
  method Levenshtein(s1: string, s2: string) returns (d: nat)
    ensures d == Distance(s1, s2)
  {
    var len1, len2 := |s1|, |s2|;
    var dp := new int[len1 + 1, len2 + 1]((_, _) => 0);

    for i := 0 to len1 + 1
      invariant forall r :: 0 <= r < i ==> dp[r, 0] == r
    {
      dp[i, 0] := i;
    }
    for j := 0 to len2 + 1
      invariant forall r :: 0 <= r <= len1 ==> dp[r, 0] == r
      invariant forall c :: 0 <= c < j ==> dp[0, c] == c
    {
      dp[0, j] := j;
    }

    assert forall c :: 0 <= c <= len2 ==> dp[0, c] == Cell(s1, s2, 0, c);
    for i := 1 to len1 + 1
      invariant forall r, c :: 0 <= r < i && 0 <= c <= len2 ==> dp[r, c] == Cell(s1, s2, r, c)
      invariant forall r :: i <= r <= len1 ==> dp[r, 0] == r
    {
      FillRow(dp, s1, s2, i);
    }

    assert dp[len1, len2] == Cell(s1, s2, len1, len2);
    assert s1[..len1] == s1 && s2[..len2] == s2;
    d := dp[len1, len2];
  }

  /**
   * One pass of the inner loop of `levenshtein`: given the rows above row i
   * and the first cell of row i, fills the rest of row i left to right; no other
   * row changes.
   */
  method FillRow(dp: array2<int>, s1: string, s2: string, i: nat)
    requires dp.Length0 == |s1| + 1 && dp.Length1 == |s2| + 1 && 0 < i <= |s1|
    requires forall r, c :: 0 <= r < i && 0 <= c <= |s2| ==> dp[r, c] == Cell(s1, s2, r, c)
    requires dp[i, 0] == i
    modifies dp
    ensures forall c :: 0 <= c <= |s2| ==> dp[i, c] == Cell(s1, s2, i, c)
    ensures forall r, c :: 0 <= r <= |s1| && 0 <= c <= |s2| && r != i ==> dp[r, c] == old(dp[r, c])
  {
    assert dp[i, 0] == Cell(s1, s2, i, 0);
    for j := 1 to |s2| + 1
      invariant forall c :: 0 <= c < j ==> dp[i, c] == Cell(s1, s2, i, c)
      invariant forall r, c :: 0 <= r <= |s1| && 0 <= c <= |s2| && r != i ==> dp[r, c] == old(dp[r, c])
    {
      CellStep(s1, s2, i, j);
      if s1[i - 1] == s2[j - 1] {
        dp[i, j] := dp[i - 1, j - 1];
      } else {
        dp[i, j] := Min3(dp[i - 1, j], dp[i, j - 1], dp[i - 1, j - 1]) + 1;
      }
    }
  }

  /**
   * The number `calculateSimilarityGuess` returns: a JavaScript number, which
   * is NaN when both strings are empty (0 / 0).
   */
  datatype Percentage = Percent(value: real) | NaN

  /** `(maxLength - distance) / maxLength * 100` over exact rationals. */
  function SimilarityOf(a: string, b: string): (p: Percentage)
  {
    var maxLength := Max(|a|, |b|);
    if maxLength == 0 then NaN
    else Percent((maxLength - Distance(a, b)) as real / maxLength as real * 100.0)
  }

  /**
   * The similarity is undefined exactly when both strings are empty;
   * otherwise it is a percentage in [0, 100], and 100 exactly when the
   * strings are equal.
   */
  lemma SimilarityRange(a: string, b: string)
    ensures SimilarityOf(a, b).NaN? <==> a == [] && b == []
    ensures SimilarityOf(a, b).Percent? ==>
              0.0 <= SimilarityOf(a, b).value <= 100.0
              && (SimilarityOf(a, b).value == 100.0 <==> a == b)
  {
    var m := Max(|a|, |b|);
    if m > 0 {
      ZeroIffEqual(a, b);
      PercentOf(m - Distance(a, b), m);
    }
  }

  /** `part / whole * 100` for 0 <= part <= whole is in [0, 100], and 100 exactly when part == whole. */
  lemma PercentOf(part: nat, whole: nat)
    requires 0 < whole && part <= whole
    ensures 0.0 <= part as real / whole as real * 100.0 <= 100.0
    ensures part as real / whole as real * 100.0 == 100.0 <==> part == whole
  {
  }

  /** `calculateSimilarityGuess`: the distance turned into a percentage of the longer length. */
  method CalculateSimilarityGuess(a: string, b: string) returns (p: Percentage)
    ensures p == SimilarityOf(a, b)
  {
    var distance := Levenshtein(a, b);
    var maxLength := Max(|a|, |b|);
    if maxLength == 0 {
      p := NaN;
    } else {
      p := Percent((maxLength - distance) as real / maxLength as real * 100.0);
    }
  }
}
