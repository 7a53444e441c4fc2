/**
 * The line diff engine: a longest-common-subsequence table over two
 * tokenised files, filled by dynamic programming and walked back into
 * insertion, deletion and common-line counts and line lists.
 *
 * A tokenised file is a sequence of lines. The pure functions Lcs,
 * ArrowAt and Backtrace are the specification; DeltaTable and
 * BasicDeltaResult are the caller-owned structures the engine fills.
 */
module Delta {

  type Line = string

  /** The four arrow tags of a table cell (DELTA_UP, DELTA_LEFT, DELTA_TILT, DELTA_DOWN). */
  datatype Arrow = Up | Left | Tilt | Down

  /** A changed line: inserted from the second file or deleted from the first. */
  datatype DiffLine = Insertion(line: Line) | Deletion(line: Line)

  /** A file specification, represented by the path it names. */
  datatype FileSpec = FileSpec(path: string)

  /** The two file specifications of one diff and their tokenised forms. */
  datatype DeltaInput = DeltaInput(fs1: FileSpec, fs2: FileSpec, df1: seq<Line>, df2: seq<Line>)

  /** The value part of a basic delta result: the three counters and the two line lists. */
  datatype Outcome = Outcome(insertions: nat, deletions: nat, common: nat,
                             commonLines: seq<Line>, diffLines: seq<DiffLine>)

  const NoChange := Outcome(0, 0, 0, [], [])

  /** Outcome p followed by outcome q: counters add up, lists are concatenated in order. */
  function Join(p: Outcome, q: Outcome): Outcome
  {
    Outcome(p.insertions + q.insertions, p.deletions + q.deletions, p.common + q.common,
            p.commonLines + q.commonLines, p.diffLines + q.diffLines)
  }

  lemma JoinAssoc(p: Outcome, q: Outcome, r: Outcome)
    ensures Join(Join(p, q), r) == Join(p, Join(q, r))
  {
    assert (p.commonLines + q.commonLines) + r.commonLines == p.commonLines + (q.commonLines + r.commonLines);
    assert (p.diffLines + q.diffLines) + r.diffLines == p.diffLines + (q.diffLines + r.diffLines);
  }

  lemma JoinNoChange(p: Outcome)
    ensures Join(NoChange, p) == p
  {
    assert [] + p.commonLines == p.commonLines;
    assert [] + p.diffLines == p.diffLines;
  }

  lemma JoinNoChangeRight(p: Outcome)
    ensures Join(p, NoChange) == p
  {
    assert p.commonLines + [] == p.commonLines;
    assert p.diffLines + [] == p.diffLines;
  }

  function Max(x: nat, y: nat): nat { if x < y then y else x }

  // ---------------------------------------------------------------------
  // Subsequences and the longest common subsequence
  // ---------------------------------------------------------------------

  /** c can be obtained from s by deleting elements (order kept). */
  ghost predicate IsSubseq(c: seq<Line>, s: seq<Line>)
    decreases |s|
  {
    c == [] ||
    (s != [] &&
     ((c[|c| - 1] == s[|s| - 1] && IsSubseq(c[..|c| - 1], s[..|s| - 1])) ||
      IsSubseq(c, s[..|s| - 1])))
  }

  /**
   * Length of a longest common subsequence of the prefixes a[..i] and b[..j]:
   * the score the comparison stores for cell (i, j).
   */
  function Lcs(a: seq<Line>, b: seq<Line>, i: nat, j: nat): (r: nat)
    requires i <= |a| && j <= |b|
    ensures r <= i && r <= j
    decreases i + j
  {
    if i == 0 || j == 0 then 0
    else if a[i - 1] == b[j - 1] then Lcs(a, b, i - 1, j - 1) + 1
    else Max(Lcs(a, b, i - 1, j), Lcs(a, b, i, j - 1))
  }

  /**
   * The arrow the comparison stores in cell (i, j), (i, j) != (0, 0):
   * a diagonal on equal lines, otherwise the better neighbour, with ties
   * going to the left (insertion) neighbour; the first row points left and
   * the first column points up.
   */
  function ArrowAt(a: seq<Line>, b: seq<Line>, i: nat, j: nat): (r: Arrow)
    requires i <= |a| && j <= |b| && i + j > 0
    ensures r != Down
    ensures r == Tilt ==> i > 0 && j > 0 && a[i - 1] == b[j - 1]
    ensures r == Up ==> i > 0
    ensures r == Left ==> j > 0
  {
    if i == 0 then Left
    else if j == 0 then Up
    else if a[i - 1] == b[j - 1] then Tilt
    else if Lcs(a, b, i - 1, j) > Lcs(a, b, i, j - 1) then Up
    else Left
  }

  /** The outcome of walking the arrows back from cell (i, j) to cell (0, 0), in file order. */
  function Backtrace(a: seq<Line>, b: seq<Line>, i: nat, j: nat): Outcome
    requires i <= |a| && j <= |b|
    decreases i + j
  {
    if i == 0 && j == 0 then NoChange
    else
      var arrow := ArrowAt(a, b, i, j);
      if arrow == Tilt then
        Join(Backtrace(a, b, i - 1, j - 1), Outcome(0, 0, 1, [a[i - 1]], []))
      else if arrow == Up then
        Join(Backtrace(a, b, i - 1, j), Outcome(0, 1, 0, [], [Deletion(a[i - 1])]))
      else
        Join(Backtrace(a, b, i, j - 1), Outcome(1, 0, 0, [], [Insertion(b[j - 1])]))
  }

  /** One step of the walk back, by the arrow of cell (i, j). */
  lemma BacktraceUnfold(a: seq<Line>, b: seq<Line>, i: nat, j: nat)
    requires i <= |a| && j <= |b| && i + j > 0
    ensures ArrowAt(a, b, i, j) == Tilt ==>
      Backtrace(a, b, i, j) == Join(Backtrace(a, b, i - 1, j - 1), Outcome(0, 0, 1, [a[i - 1]], []))
    ensures ArrowAt(a, b, i, j) == Up ==>
      Backtrace(a, b, i, j) == Join(Backtrace(a, b, i - 1, j), Outcome(0, 1, 0, [], [Deletion(a[i - 1])]))
    ensures ArrowAt(a, b, i, j) == Left ==>
      Backtrace(a, b, i, j) == Join(Backtrace(a, b, i, j - 1), Outcome(1, 0, 0, [], [Insertion(b[j - 1])]))
  {
  }

  // ---------------------------------------------------------------------
  // What the backtrace computes
  // ---------------------------------------------------------------------

  /**
   * The common count is the LCS score of the start cell and equals the number
   * of common lines.
   */
  lemma {:induction false} BacktraceScore(a: seq<Line>, b: seq<Line>, i: nat, j: nat)
    requires i <= |a| && j <= |b|
    ensures var t := Backtrace(a, b, i, j);
      t.common == |t.commonLines| == Lcs(a, b, i, j)
    decreases i + j
  {
    if i == 0 && j == 0 {
    } else {
      var arrow := ArrowAt(a, b, i, j);
      BacktraceUnfold(a, b, i, j);
      var t := Backtrace(a, b, i, j);
      if arrow == Tilt {
        var r := Backtrace(a, b, i - 1, j - 1);
        BacktraceScore(a, b, i - 1, j - 1);
        assert t.common == r.common + 1 && t.commonLines == r.commonLines + [a[i - 1]];
        assert Lcs(a, b, i, j) == Lcs(a, b, i - 1, j - 1) + 1;
      } else if arrow == Up {
        var r := Backtrace(a, b, i - 1, j);
        BacktraceScore(a, b, i - 1, j);
        assert t.common == r.common && t.commonLines == r.commonLines + [];
        assert Lcs(a, b, i, j) == Lcs(a, b, i - 1, j);
      } else {
        var r := Backtrace(a, b, i, j - 1);
        BacktraceScore(a, b, i, j - 1);
        assert t.common == r.common && t.commonLines == r.commonLines + [];
        assert Lcs(a, b, i, j) == Lcs(a, b, i, j - 1);
      }
    }
  }

  /**
   * Every line of the first file is common or deleted, every line of the
   * second common or inserted, and each change is one diff line.
   */
  lemma {:induction false} BacktraceBalance(a: seq<Line>, b: seq<Line>, i: nat, j: nat)
    requires i <= |a| && j <= |b|
    ensures var t := Backtrace(a, b, i, j);
      t.deletions + t.common == i &&
      t.insertions + t.common == j &&
      |t.diffLines| == t.insertions + t.deletions
    decreases i + j
  {
    if i == 0 && j == 0 {
    } else {
      var arrow := ArrowAt(a, b, i, j);
      BacktraceUnfold(a, b, i, j);
      if arrow == Tilt {
        BacktraceBalance(a, b, i - 1, j - 1);
      } else if arrow == Up {
        BacktraceBalance(a, b, i - 1, j);
      } else {
        BacktraceBalance(a, b, i, j - 1);
      }
    }
  }

  /** A subsequence of a prefix of s is a subsequence of the longer prefix. */
  lemma {:induction false} SubseqExtend(c: seq<Line>, s: seq<Line>, k: nat)
    requires k < |s| && IsSubseq(c, s[..k])
    ensures IsSubseq(c, s[..k + 1])
  {
    assert s[..k + 1][..k] == s[..k];
  }

  /** Adding a matching last element to both sides keeps a subsequence. */
  lemma {:induction false} SubseqAppend(c: seq<Line>, s: seq<Line>, k: nat)
    requires k < |s| && IsSubseq(c, s[..k])
    ensures IsSubseq(c + [s[k]], s[..k + 1])
  {
    var c' := c + [s[k]];
    assert c'[..|c'| - 1] == c;
    assert s[..k + 1][..k] == s[..k];
  }

  /** The common lines of a backtrace occur, in order, in the first file. */
  lemma {:induction false} BacktraceCommonInFirst(a: seq<Line>, b: seq<Line>, i: nat, j: nat)
    requires i <= |a| && j <= |b|
    ensures IsSubseq(Backtrace(a, b, i, j).commonLines, a[..i])
    decreases i + j
  {
    if i == 0 && j == 0 {
    } else {
      var arrow := ArrowAt(a, b, i, j);
      if arrow == Tilt {
        BacktraceCommonInFirst(a, b, i - 1, j - 1);
        SubseqAppend(Backtrace(a, b, i - 1, j - 1).commonLines, a, i - 1);
      } else if arrow == Up {
        BacktraceCommonInFirst(a, b, i - 1, j);
        var c := Backtrace(a, b, i - 1, j).commonLines;
        assert Backtrace(a, b, i, j).commonLines == c + [] == c;
        SubseqExtend(c, a, i - 1);
      } else {
        BacktraceCommonInFirst(a, b, i, j - 1);
        var c := Backtrace(a, b, i, j - 1).commonLines;
        assert Backtrace(a, b, i, j).commonLines == c + [] == c;
      }
    }
  }

  /** The common lines of a backtrace occur, in order, in the second file. */
  lemma {:induction false} BacktraceCommonInSecond(a: seq<Line>, b: seq<Line>, i: nat, j: nat)
    requires i <= |a| && j <= |b|
    ensures IsSubseq(Backtrace(a, b, i, j).commonLines, b[..j])
    decreases i + j
  {
    if i == 0 && j == 0 {
    } else {
      var arrow := ArrowAt(a, b, i, j);
      if arrow == Tilt {
        BacktraceCommonInSecond(a, b, i - 1, j - 1);
        SubseqAppend(Backtrace(a, b, i - 1, j - 1).commonLines, b, j - 1);
      } else if arrow == Up {
        BacktraceCommonInSecond(a, b, i - 1, j);
        var c := Backtrace(a, b, i - 1, j).commonLines;
        assert Backtrace(a, b, i, j).commonLines == c + [] == c;
      } else {
        BacktraceCommonInSecond(a, b, i, j - 1);
        var c := Backtrace(a, b, i, j - 1).commonLines;
        assert Backtrace(a, b, i, j).commonLines == c + [] == c;
        SubseqExtend(c, b, j - 1);
      }
    }
  }

  /** Dropping the last element of a non-empty subsequence leaves a subsequence of the shorter prefix. */
  lemma {:induction false} SubseqDropLast(c: seq<Line>, s: seq<Line>, k: nat)
    requires 0 < k <= |s| && c != [] && IsSubseq(c, s[..k])
    ensures IsSubseq(c[..|c| - 1], s[..k - 1])
    decreases k
  {
    var t := s[..k];
    assert t[..|t| - 1] == s[..k - 1];
    if c[|c| - 1] == t[|t| - 1] && IsSubseq(c[..|c| - 1], t[..|t| - 1]) {
    } else {
      assert IsSubseq(c, s[..k - 1]);
      SubseqDropLast(c, s, k - 1);
      if k - 1 > 0 { SubseqExtend(c[..|c| - 1], s, k - 2); }
    }
  }

  /** If the last element of c differs from s[k-1], c is a subsequence of s[..k-1]. */
  lemma {:induction false} SubseqSkipLast(c: seq<Line>, s: seq<Line>, k: nat)
    requires 0 < k <= |s| && c != [] && IsSubseq(c, s[..k]) && c[|c| - 1] != s[k - 1]
    ensures IsSubseq(c, s[..k - 1])
  {
    assert s[..k][..k - 1] == s[..k - 1];
  }

  /** No common subsequence of a[..i] and b[..j] is longer than Lcs(a, b, i, j). */
  lemma {:induction false} LcsUpperBound(a: seq<Line>, b: seq<Line>, i: nat, j: nat, c: seq<Line>)
    requires i <= |a| && j <= |b|
    requires IsSubseq(c, a[..i]) && IsSubseq(c, b[..j])
    ensures |c| <= Lcs(a, b, i, j)
    decreases i + j
  {
    if c == [] || i == 0 || j == 0 {
    } else if a[i - 1] == b[j - 1] {
      SubseqDropLast(c, a, i);
      SubseqDropLast(c, b, j);
      LcsUpperBound(a, b, i - 1, j - 1, c[..|c| - 1]);
    } else if c[|c| - 1] != a[i - 1] {
      SubseqSkipLast(c, a, i);
      LcsUpperBound(a, b, i - 1, j, c);
    } else {
      SubseqSkipLast(c, b, j);
      LcsUpperBound(a, b, i, j - 1, c);
    }
  }

  /**
   * The comparison's score is the length of a LONGEST common subsequence:
   * the backtrace's common lines are a common subsequence of that length,
   * and no common subsequence is longer.
   */
  lemma LcsIsLongest(a: seq<Line>, b: seq<Line>)
    ensures var c := Backtrace(a, b, |a|, |b|).commonLines;
      IsSubseq(c, a) && IsSubseq(c, b) && |c| == Lcs(a, b, |a|, |b|)
    ensures forall c :: IsSubseq(c, a) && IsSubseq(c, b) ==> |c| <= Lcs(a, b, |a|, |b|)
  {
    assert a[..|a|] == a && b[..|b|] == b;
    BacktraceScore(a, b, |a|, |b|);
    BacktraceCommonInFirst(a, b, |a|, |b|);
    BacktraceCommonInSecond(a, b, |a|, |b|);
    forall c | IsSubseq(c, a) && IsSubseq(c, b) ensures |c| <= Lcs(a, b, |a|, |b|) {
      LcsUpperBound(a, b, |a|, |b|, c);
    }
  }

  /** Diffing a file against itself: every line is common, nothing changes. */
  lemma {:induction false} IdentityDiff(a: seq<Line>, i: nat)
    requires i <= |a|
    ensures Backtrace(a, a, i, i) == Outcome(0, 0, i, a[..i], [])
  {
    if i > 0 {
      IdentityDiff(a, i - 1);
      assert a[..i] == a[..i - 1] + [a[i - 1]];
    }
  }

  /** Two files without a line in common have an LCS score of zero. */
  lemma {:induction false} DisjointLcs(a: seq<Line>, b: seq<Line>, i: nat, j: nat)
    requires i <= |a| && j <= |b|
    requires forall k, l :: 0 <= k < |a| && 0 <= l < |b| ==> a[k] != b[l]
    ensures Lcs(a, b, i, j) == 0
    decreases i + j
  {
    if i > 0 && j > 0 {
      DisjointLcs(a, b, i - 1, j);
      DisjointLcs(a, b, i, j - 1);
    }
  }

  /** Diffing two disjoint files: no common line, every line deleted or inserted. */
  lemma DisjointDiff(a: seq<Line>, b: seq<Line>)
    requires forall k, l :: 0 <= k < |a| && 0 <= l < |b| ==> a[k] != b[l]
    ensures var t := Backtrace(a, b, |a|, |b|);
      t.common == 0 && t.commonLines == [] && t.insertions == |b| && t.deletions == |a|
  {
    DisjointLcs(a, b, |a|, |b|);
    BacktraceScore(a, b, |a|, |b|);
    BacktraceBalance(a, b, |a|, |b|);
  }

  /** ["a","b","c"] against ["a","x","c"]: "b" deleted, "x" inserted, "a" and "c" common. */
  lemma ScenarioOneLineChanged()
    ensures Backtrace(["a", "b", "c"], ["a", "x", "c"], 3, 3)
         == Outcome(1, 1, 2, ["a", "c"], [Deletion("b"), Insertion("x")])
  {
    var a: seq<Line> := ["a", "b", "c"];
    var b: seq<Line> := ["a", "x", "c"];
    assert Lcs(a, b, 1, 1) == 1;
    assert Lcs(a, b, 1, 2) == 1;
    assert Lcs(a, b, 2, 1) == 1;
    assert ArrowAt(a, b, 2, 2) == Left;
    assert ArrowAt(a, b, 2, 1) == Up;
  }

  // ---------------------------------------------------------------------
  // The table and its fill
  // ---------------------------------------------------------------------

  /**
   * The arrow grid has (row + 1) x (col + 1) cells; prev and sol are score
   * rows of col + 1 entries: the previous row's scores and the row being
   * computed.
   */
  class DeltaTable {
    const table: array2<Arrow>
    const prev: array<int>
    const sol: array<int>
    const row: int
    const col: int

    ghost predicate Valid()
      reads this
    {
      0 <= row && 0 <= col &&
      table.Length0 == row + 1 && table.Length1 == col + 1 &&
      prev.Length == col + 1 && sol.Length == col + 1 && prev != sol
    }

    /** Every cell but (0, 0) holds the arrow the comparison of a and b chooses. */
    ghost predicate Filled(a: seq<Line>, b: seq<Line>)
      requires Valid() && row == |a| && col == |b|
      reads this, table
    {
      forall i, j :: 0 <= i <= row && 0 <= j <= col && i + j > 0 ==> table[i, j] == ArrowAt(a, b, i, j)
    }

    /**
     * Every arrow but the one in cell (0, 0) can be followed: no DELTA_DOWN,
     * and no arrow leaves the grid.
     */
    ghost predicate Walkable()
      requires Valid()
      reads this, table
    {
      forall i, j :: 0 <= i <= row && 0 <= j <= col && i + j > 0 ==>
        table[i, j] != Down &&
        (table[i, j] == Tilt ==> i > 0 && j > 0) &&
        (table[i, j] == Up ==> i > 0) &&
        (table[i, j] == Left ==> j > 0)
    }

    /** What following the stored arrows from cell (i, j) back to (0, 0) collects, in file order. */
    ghost function Walk(a: seq<Line>, b: seq<Line>, i: nat, j: nat): Outcome
      requires Valid() && Walkable() && row == |a| && col == |b| && i <= row && j <= col
      reads this, table
      decreases i + j
    {
      if i == 0 && j == 0 then NoChange
      else if table[i, j] == Tilt then
        Join(Walk(a, b, i - 1, j - 1), Outcome(0, 0, 1, [a[i - 1]], []))
      else if table[i, j] == Up then
        Join(Walk(a, b, i - 1, j), Outcome(0, 1, 0, [], [Deletion(a[i - 1])]))
      else
        Join(Walk(a, b, i, j - 1), Outcome(1, 0, 0, [], [Insertion(b[j - 1])]))
    }

    /** A table the comparison filled can be walked, and walking it is the specified backtrace. */
    lemma {:induction false} WalkFilled(a: seq<Line>, b: seq<Line>, i: nat, j: nat)
      requires Valid() && row == |a| && col == |b| && Filled(a, b) && i <= row && j <= col
      ensures Walkable() && Walk(a, b, i, j) == Backtrace(a, b, i, j)
      decreases i + j
    {
      if i == 0 && j == 0 {
      } else {
        var arrow := table[i, j];
        assert arrow == ArrowAt(a, b, i, j);
        BacktraceUnfold(a, b, i, j);
        if arrow == Tilt {
          WalkFilled(a, b, i - 1, j - 1);
        } else if arrow == Up {
          WalkFilled(a, b, i - 1, j);
        } else {
          WalkFilled(a, b, i, j - 1);
        }
      }
    }

    /** delta_table_init: a zeroed table of the requested size. */
    constructor (row: int, col: int)
      requires 0 <= row && 0 <= col
      ensures Valid() && this.row == row && this.col == col
      ensures fresh(table) && fresh(prev) && fresh(sol)
      ensures forall i, j :: 0 <= i <= row && 0 <= j <= col ==> table[i, j] == Up
      ensures forall k :: 0 <= k <= col ==> prev[k] == 0 && sol[k] == 0
    {
      this.row, this.col := row, col;
      table := new Arrow[row + 1, col + 1]((i, j) => Up);
      prev := new int[col + 1](k => 0);
      sol := new int[col + 1](k => 0);
    }

    /**
     * One row of the comparison: from the previous row's scores in prev,
     * computes row i's scores into sol and its arrows into the grid.
     */
    method FillRow(a: seq<Line>, b: seq<Line>, i: int)
      requires Valid() && row == |a| && col == |b| && 1 <= i <= row
      requires forall k :: 0 <= k <= col ==> prev[k] == Lcs(a, b, i - 1, k)
      modifies table, sol
      ensures forall k :: 0 <= k <= col ==> sol[k] == Lcs(a, b, i, k)
      ensures forall k :: 0 <= k <= col ==> table[i, k] == ArrowAt(a, b, i, k)
      ensures forall r, k :: 0 <= r <= row && r != i && 0 <= k <= col ==> table[r, k] == old(table[r, k])
    {
      sol[0] := 0;
      table[i, 0] := Up;
      var j := 1;
      while j <= col
        invariant 1 <= j <= col + 1 && Valid()
        invariant forall k :: 0 <= k <= col ==> prev[k] == Lcs(a, b, i - 1, k)
        invariant forall k {:trigger sol[k]} :: 0 <= k < j ==> sol[k] == Lcs(a, b, i, k)
        invariant forall k :: 0 <= k < j ==> table[i, k] == ArrowAt(a, b, i, k)
        invariant forall r, k :: 0 <= r <= row && r != i && 0 <= k <= col ==> table[r, k] == old(table[r, k])
      {
        var score, arrow;
        if a[i - 1] == b[j - 1] {
          score, arrow := prev[j - 1] + 1, Tilt;
        } else if prev[j] > sol[j - 1] {
          score, arrow := prev[j], Up;
        } else {
          score, arrow := sol[j - 1], Left;
        }
        assert score == Lcs(a, b, i, j) && arrow == ArrowAt(a, b, i, j);
        sol[j] := score;
        table[i, j] := arrow;
        j := j + 1;
      }
    }

    /**
     * delta_basic_comparison_m: fills the arrow grid row by row and returns
     * the LCS score of the two files.
     */
    method Compare(a: seq<Line>, b: seq<Line>) returns (n: nat)
      requires Valid() && row == |a| && col == |b|
      modifies table, prev, sol
      ensures n == Lcs(a, b, |a|, |b|)
      ensures Filled(a, b)
    {
      for j := 0 to col + 1
        invariant forall k :: 0 <= k < j ==> prev[k] == 0 && table[0, k] == Left
      {
        prev[j] := 0;
        table[0, j] := Left;
      }
      var i := 1;
      while i <= row
        invariant 1 <= i <= row + 1
        invariant forall k :: 0 <= k <= col ==> prev[k] == Lcs(a, b, i - 1, k)
        invariant forall r, k :: 0 <= r < i && 0 <= k <= col && r + k > 0 ==> table[r, k] == ArrowAt(a, b, r, k)
      {
        FillRow(a, b, i);
        forall k | 0 <= k <= col {
          prev[k] := sol[k];
        }
        i := i + 1;
      }
      n := prev[col];
    }
  }

  // ---------------------------------------------------------------------
  // The result and its backtrace
  // ---------------------------------------------------------------------

  class BasicDeltaResult {
    var insertions: nat
    var deletions: nat
    var common: nat
    var input: DeltaInput
    var commonLines: seq<Line>
    var diffLines: seq<DiffLine>

    /** The counters and line lists as one value. */
    function Current(): Outcome
      reads this
    {
      Outcome(insertions, deletions, common, commonLines, diffLines)
    }

    /** basic_delta_result_init: no counts, no lines, and the given input. */
    constructor (di: DeltaInput)
      ensures input == di
      ensures Current() == NoChange
    {
      insertions, deletions, common := 0, 0, 0;
      input := di;
      commonLines, diffLines := [], [];
    }

    /** Counts one backtrace step and prepends its lines. */
    method Record(step: Outcome)
      modifies this
      ensures input == old(input)
      ensures Current() == Join(step, old(Current()))
    {
      insertions := step.insertions + insertions;
      deletions := step.deletions + deletions;
      common := step.common + common;
      commonLines := step.commonLines + commonLines;
      diffLines := step.diffLines + diffLines;
    }

    /**
     * delta_backtrace_table: walks the filled table from cell (|a|, |b|) back
     * to (0, 0), counting each step and prepending its line, so the lists come
     * out in file order ahead of whatever the result already held.
     */
    method BacktraceTable(t: DeltaTable, a: seq<Line>, b: seq<Line>)
      requires t.Valid() && t.Walkable() && t.row == |a| && t.col == |b|
      modifies this
      ensures input == old(input)
      ensures Current() == Join(t.Walk(a, b, |a|, |b|), old(Current()))
    {
      var i, j := t.row, t.col;
      while i > 0 || j > 0
        invariant 0 <= i <= |a| && 0 <= j <= |b|
        invariant input == old(input)
        invariant Join(t.Walk(a, b, i, j), Current()) == Join(t.Walk(a, b, |a|, |b|), old(Current()))
        decreases i + j
      {
        ghost var rest := t.Walk(a, b, i, j);
        var arrow := t.table[i, j];
        var step;
        if arrow == Tilt {
          step := Outcome(0, 0, 1, [a[i - 1]], []);
          i, j := i - 1, j - 1;
        } else if arrow == Up {
          step := Outcome(0, 1, 0, [], [Deletion(a[i - 1])]);
          i := i - 1;
        } else {
          step := Outcome(1, 0, 0, [], [Insertion(b[j - 1])]);
          j := j - 1;
        }
        assert rest == Join(t.Walk(a, b, i, j), step);
        JoinAssoc(t.Walk(a, b, i, j), step, Current());
        Record(step);
      }
      JoinNoChange(Current());
    }
  }

  /**
   * The whole comparison of two tokenised files: a table sized to them, the
   * fill, a fresh result for the input and the backtrace into it. The result
   * counts the LCS score the fill returned as its common lines, which form a
   * longest common subsequence, and accounts for every line of both files.
   */
  method BasicDiff(di: DeltaInput) returns (n: nat, res: BasicDeltaResult)
    ensures n == Lcs(di.df1, di.df2, |di.df1|, |di.df2|)
    ensures res.input == di
    ensures res.Current() == Backtrace(di.df1, di.df2, |di.df1|, |di.df2|)
    ensures res.common == n == |res.commonLines|
    ensures res.deletions + res.common == |di.df1| && res.insertions + res.common == |di.df2|
    ensures IsSubseq(res.commonLines, di.df1) && IsSubseq(res.commonLines, di.df2)
  {
    var a, b := di.df1, di.df2;
    var t := new DeltaTable(|a|, |b|);
    n := t.Compare(a, b);
    t.WalkFilled(a, b, |a|, |b|);
    res := new BasicDeltaResult(di);
    res.BacktraceTable(t, a, b);
    JoinNoChangeRight(Backtrace(a, b, |a|, |b|));
    BacktraceScore(a, b, |a|, |b|);
    BacktraceBalance(a, b, |a|, |b|);
    LcsIsLongest(a, b);
  }
}
