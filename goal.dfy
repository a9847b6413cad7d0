/** The tree counter (updateTreeCount) and the one-shot popup latch
    (showValentinePopup with gameState.valentineShown). */
module Goal {
  import opened Config
  import opened Cells
  import opened Growth

  /** Keys whose record is a tree. */
  function TreeKeys(grid: Grid): (ks: set<string>)
    ensures ks <= grid.Keys
  {
    set id | id in grid && IsTree(grid[id])
  }

  /** The number of trees on the grid. */
  function TreeCount(grid: Grid): nat {
    |TreeKeys(grid)|
  }

  /** The counting loop of updateTreeCount over the grid's keys. */
  method CountTrees(grid: Grid) returns (count: nat)
    ensures count == TreeCount(grid)
    ensures count <= |grid|
  {
    count := 0;
    var todo := grid.Keys;
    ghost var done: set<string> := {};
    while todo != {}
      invariant todo + done == grid.Keys && todo !! done
      invariant count == |TreeKeys(grid) * done|
      decreases |todo|
    {
      var id :| id in todo;
      CountOneMore(grid, done, id);
      if IsTree(grid[id]) {
        count := count + 1;
      }
      todo := todo - {id};
      done := done + {id};
    }
    assert TreeKeys(grid) * done == TreeKeys(grid);
    SubsetCardinality(TreeKeys(grid), grid.Keys);
  }

  lemma CountOneMore(grid: Grid, done: set<string>, id: string)
    requires id in grid && id !in done
    ensures |TreeKeys(grid) * (done + {id})| ==
      |TreeKeys(grid) * done| + (if IsTree(grid[id]) then 1 else 0)
  {
    if IsTree(grid[id]) {
      assert TreeKeys(grid) * (done + {id}) == TreeKeys(grid) * done + {id};
    } else {
      assert TreeKeys(grid) * (done + {id}) == TreeKeys(grid) * done;
    }
  }

  /** The growth pass never turns a tree into anything else, so it never
      lowers the tree count. */
  lemma GrowthKeepsTrees(grid: Grid, now: int)
    ensures TreeKeys(grid) <= TreeKeys(GrowGrid(grid, now))
    ensures TreeCount(grid) <= TreeCount(GrowGrid(grid, now))
  {
    var g := GrowGrid(grid, now);
    forall id | id in TreeKeys(grid)
      ensures id in TreeKeys(g)
    {
      assert IsTree(grid[id]);
      assert g[id] == Grow(grid[id], now);
    }
    SubsetCardinality(TreeKeys(grid), TreeKeys(g));
  }

  lemma {:induction false} SubsetCardinality(a: set<string>, b: set<string>)
    requires a <= b
    ensures |a| <= |b|
    decreases |b|
  {
    if a != {} {
      var x :| x in a;
      SubsetCardinality(a - {x}, b - {x});
    }
  }

  /** Whether a count shown with the latch in state `shown` opens the popup. */
  predicate Fires(shown: bool, count: int) {
    !shown && count >= TreeGoal
  }

  /** The latch after successive counts. */
  function LatchAfter(shown: bool, counts: seq<int>): bool
    decreases |counts|
  {
    if counts == [] then shown
    else LatchAfter(shown || counts[0] >= TreeGoal, counts[1..])
  }

  /** How many times the popup opens over successive counts. */
  function Firings(shown: bool, counts: seq<int>): nat
    decreases |counts|
  {
    if counts == [] then 0
    else (if Fires(shown, counts[0]) then 1 else 0) + Firings(shown || counts[0] >= TreeGoal, counts[1..])
  }

  /** Whatever the sequence of counts, the popup opens at most once: exactly
      once when the latch starts open and some count reaches the goal, and
      then the latch stays closed. */
  lemma {:induction false} PopupOpensAtMostOnce(shown: bool, counts: seq<int>)
    ensures Firings(shown, counts) <= 1
    ensures Firings(shown, counts) == 1 <==> !shown && exists i :: 0 <= i < |counts| && counts[i] >= TreeGoal
    ensures LatchAfter(shown, counts) <==> shown || exists i :: 0 <= i < |counts| && counts[i] >= TreeGoal
    ensures shown ==> LatchAfter(shown, counts) && Firings(shown, counts) == 0
    decreases |counts|
  {
    if counts != [] {
      var shown' := shown || counts[0] >= TreeGoal;
      PopupOpensAtMostOnce(shown', counts[1..]);
      if exists i :: 0 <= i < |counts[1..]| && counts[1..][i] >= TreeGoal {
        var i :| 0 <= i < |counts[1..]| && counts[1..][i] >= TreeGoal;
        assert counts[i + 1] >= TreeGoal;
      }
      if exists i :: 0 <= i < |counts| && counts[i] >= TreeGoal {
        var i :| 0 <= i < |counts| && counts[i] >= TreeGoal;
        if i > 0 {
          assert counts[1..][i - 1] >= TreeGoal;
        }
      }
    }
  }
}
