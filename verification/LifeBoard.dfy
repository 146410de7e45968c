/** The Game of Life on a board of `lines` by `columns` cells: the reference
    rule, and the eight guarded tests the program uses to compute it. */
module LifeBoard {

  const MAXGRID := 40

  /** A grid gives the cells that have been written; all others hold 0, as the
      program's global arrays do. */
  type Grid = map<(int, int), int>

  function At(g: Grid, x: int, y: int): int
  {
    if (x, y) in g then g[(x, y)] else 0
  }

  predicate Inside(lines: int, columns: int, x: int, y: int)
  {
    0 <= x < lines && 0 <= y < columns
  }

  /** g and h show the same board. */
  ghost predicate SameBoard(lines: int, columns: int, g: Grid, h: Grid)
  {
    forall x, y :: Inside(lines, columns, x, y) ==> At(g, x, y) == At(h, x, y)
  }

  ghost predicate AllDead(lines: int, columns: int, g: Grid)
  {
    forall x, y :: Inside(lines, columns, x, y) ==> At(g, x, y) == 0
  }

  /** Everything off the board is 0. */
  ghost predicate Framed(lines: int, columns: int, g: Grid)
  {
    forall x, y :: !Inside(lines, columns, x, y) ==> At(g, x, y) == 0
  }

  // ----- the reference rule

  function LiveNeighbours(lines: int, columns: int, g: Grid, x: int, y: int): set<(int, int)>
  {
    set i, j | x - 1 <= i <= x + 1 && y - 1 <= j <= y + 1
               && (i, j) != (x, y) && Inside(lines, columns, i, j) && At(g, i, j) != 0 :: (i, j)
  }

  /** A cell lives in the next generation when it has three live neighbours, or
      two and is alive now. */
  function NextCell(lines: int, columns: int, g: Grid, x: int, y: int): int
  {
    var m := |LiveNeighbours(lines, columns, g, x, y)|;
    if m == 3 || (m == 2 && At(g, x, y) != 0) then 1 else 0
  }

  function Life(lines: int, columns: int, g: Grid): Grid
  {
    map x, y | 0 <= x < lines && 0 <= y < columns :: (x, y) := NextCell(lines, columns, g, x, y)
  }

  /** The board after k generations. */
  function Gen(lines: int, columns: int, g: Grid, k: nat): Grid
  {
    if k == 0 then g else Life(lines, columns, Gen(lines, columns, g, k - 1))
  }

  lemma LifeCells(lines: int, columns: int, g: Grid, h: Grid)
    requires h == Life(lines, columns, g)
    ensures Framed(lines, columns, h)
    ensures forall x, y :: Inside(lines, columns, x, y) ==> At(h, x, y) == NextCell(lines, columns, g, x, y)
  {
  }

  /** The next cell depends only on the board. */
  lemma NextCellOnBoard(lines: int, columns: int, g: Grid, h: Grid, x: int, y: int)
    requires SameBoard(lines, columns, g, h) && Inside(lines, columns, x, y)
    ensures NextCell(lines, columns, g, x, y) == NextCell(lines, columns, h, x, y)
  {
    assert LiveNeighbours(lines, columns, g, x, y) == LiveNeighbours(lines, columns, h, x, y);
  }

  // ----- evolutions

  /** The boards of successive generations.  The protocol is proved for any such
      sequence that follows the rule; Evolution is the one that exists. */
  type Boards = int -> Grid

  /** Generation k of b stays within the board, and k + 1 follows from it. */
  ghost predicate Follows(lines: int, columns: int, b: Boards, k: int)
  {
    Framed(lines, columns, b(k))
    && forall x, y :: Inside(lines, columns, x, y) ==> At(b(k + 1), x, y) == NextCell(lines, columns, b(k), x, y)
  }

  ghost predicate Evolves(lines: int, columns: int, b: Boards)
  {
    forall k | 0 <= k :: Follows(lines, columns, b, k)
  }

  function Evolution(lines: int, columns: int, g: Grid): Boards
  {
    k => if k <= 0 then g else Gen(lines, columns, g, k)
  }

  lemma FollowsFrom(lines: int, columns: int, b: Boards, k: int, g: Grid, h: Grid)
    requires b(k) == g && b(k + 1) == h && Framed(lines, columns, g) && h == Life(lines, columns, g)
    ensures Follows(lines, columns, b, k)
  {
    LifeCells(lines, columns, g, h);
  }

  lemma {:induction false} GenFramed(lines: int, columns: int, g: Grid, k: nat)
    requires Framed(lines, columns, g)
    ensures Framed(lines, columns, Gen(lines, columns, g, k))
  {
    if k > 0 {
      LifeCells(lines, columns, Gen(lines, columns, g, k - 1), Gen(lines, columns, g, k));
    }
  }

  lemma EvolutionStep(lines: int, columns: int, g: Grid, k: nat, now: Grid, next: Grid)
    requires Framed(lines, columns, now) && next == Life(lines, columns, now)
    requires now == Gen(lines, columns, g, k) && next == Gen(lines, columns, g, k + 1)
    ensures Follows(lines, columns, Evolution(lines, columns, g), k)
  {
    FollowsFrom(lines, columns, Evolution(lines, columns, g), k, now, next);
  }

  /** Repeating the rule from a framed board is an evolution. */
  lemma EvolutionEvolves(lines: int, columns: int, g: Grid)
    requires Framed(lines, columns, g)
    ensures Evolves(lines, columns, Evolution(lines, columns, g))
  {
    forall k | 0 <= k ensures Follows(lines, columns, Evolution(lines, columns, g), k) {
      GenFramed(lines, columns, g, k);
      EvolutionStep(lines, columns, g, k, Gen(lines, columns, g, k), Gen(lines, columns, g, k + 1));
    }
  }

  // ----- early stop

  /** The stop test after generation k: nothing lives, or nothing changed. */
  ghost predicate StopTest(lines: int, columns: int, b: Boards, k: int)
  {
    1 <= k && (AllDead(lines, columns, b(k)) || SameBoard(lines, columns, b(k - 1), b(k)))
  }

  /** Equal boards have equal successors. */
  lemma FollowSame(lines: int, columns: int, b: Boards, j: int, k: int)
    requires Evolves(lines, columns, b) && 0 <= j && 0 <= k
    requires SameBoard(lines, columns, b(j), b(k))
    ensures SameBoard(lines, columns, b(j + 1), b(k + 1))
  {
    assert Follows(lines, columns, b, j) && Follows(lines, columns, b, k);
    forall x, y | Inside(lines, columns, x, y) ensures At(b(j + 1), x, y) == At(b(k + 1), x, y) {
      NextCellOnBoard(lines, columns, b(j), b(k), x, y);
    }
  }

  /** The dead board stays dead. */
  lemma DeadStaysDead(lines: int, columns: int, b: Boards, k: int)
    requires Evolves(lines, columns, b) && 0 <= k && AllDead(lines, columns, b(k))
    ensures AllDead(lines, columns, b(k + 1))
  {
    assert Follows(lines, columns, b, k);
    forall x, y | Inside(lines, columns, x, y) ensures At(b(k + 1), x, y) == 0 {
      assert LiveNeighbours(lines, columns, b(k), x, y) == {};
    }
  }

  /** When the stop test holds at k, every later generation shows the same board. */
  lemma {:induction false} StopIsSound(lines: int, columns: int, b: Boards, k: int, m: int)
    requires Evolves(lines, columns, b) && 1 <= k <= m && StopTest(lines, columns, b, k)
    ensures SameBoard(lines, columns, b(k), b(m))
    decreases m
  {
    if k < m {
      StopIsSound(lines, columns, b, k, m - 1);
      FollowSame(lines, columns, b, k, m - 1);
      if AllDead(lines, columns, b(k)) {
        DeadStaysDead(lines, columns, b, k);
      } else {
        FollowSame(lines, columns, b, k - 1, k);
      }
    }
  }

  // ----- the program's computation of a cell

  /** The cell looked at by the k-th of the eight tests, in the program's order. */
  function Near(x: int, y: int, k: int): (int, int)
  {
    match k
    case 0 => (x - 1, y - 1)
    case 1 => (x - 1, y)
    case 2 => (x - 1, y + 1)
    case 3 => (x, y - 1)
    case 4 => (x, y + 1)
    case 5 => (x + 1, y - 1)
    case 6 => (x + 1, y)
    case _ => (x + 1, y + 1)
  }

  /** The guard of the k-th test, as written: it lets through the line and the
      column just past the board. */
  predicate Guard(lines: int, columns: int, x: int, y: int, k: int)
  {
    match k
    case 0 => x - 1 >= 0 && y - 1 >= 0
    case 1 => x - 1 >= 0
    case 2 => x - 1 >= 0 && y + 1 <= columns
    case 3 => y - 1 >= 0
    case 4 => y + 1 <= columns
    case 5 => x + 1 <= lines && y - 1 >= 0
    case 6 => x + 1 <= lines
    case _ => x + 1 <= lines && y + 1 <= columns
  }

  predicate Test(lines: int, columns: int, g: Grid, x: int, y: int, k: int)
  {
    Guard(lines, columns, x, y, k) && At(g, Near(x, y, k).0, Near(x, y, k).1) != 0
  }

  /** The counter after the first k tests. */
  function CountTo(lines: int, columns: int, g: Grid, x: int, y: int, k: nat): nat
  {
    if k == 0 then 0
    else CountTo(lines, columns, g, x, y, k - 1) + (if Test(lines, columns, g, x, y, k - 1) then 1 else 0)
  }

  /** The program's if-chain from the counter and the present cell to the new cell. */
  function Rule(count: int, was: int): int
  {
    if count <= 1 || count >= 4 then 0
    else if count == 3 then 1
    else if count == 2 && was != 0 then 1
    else was
  }

  /** The live neighbours among the first k cells looked at. */
  function Seen(lines: int, columns: int, g: Grid, x: int, y: int, k: nat): set<(int, int)>
  {
    set j | 0 <= j < k && Inside(lines, columns, Near(x, y, j).0, Near(x, y, j).1)
            && At(g, Near(x, y, j).0, Near(x, y, j).1) != 0 :: Near(x, y, j)
  }

  lemma NearDiffers(x: int, y: int, j: nat, k: nat)
    requires j < k < 8
    ensures Near(x, y, j) != Near(x, y, k)
  {
  }

  /** A guarded test succeeds for a live cell of the board only. */
  lemma TestSees(lines: int, columns: int, g: Grid, x: int, y: int, k: nat)
    requires Framed(lines, columns, g) && Inside(lines, columns, x, y) && k < 8
    ensures var p := Near(x, y, k);
            Test(lines, columns, g, x, y, k) <==> Inside(lines, columns, p.0, p.1) && At(g, p.0, p.1) != 0
  {
    hide At;
    var p := Near(x, y, k);
    if !Inside(lines, columns, p.0, p.1) {
      assert At(g, p.0, p.1) == 0;
    }
  }

  lemma SeenGrows(lines: int, columns: int, g: Grid, x: int, y: int, k: nat)
    requires 0 < k <= 8
    ensures var p, earlier := Near(x, y, k - 1), Seen(lines, columns, g, x, y, k - 1);
            p !in earlier
            && Seen(lines, columns, g, x, y, k)
               == if Inside(lines, columns, p.0, p.1) && At(g, p.0, p.1) != 0 then earlier + {p} else earlier
  {
    hide Near, Inside, At;
    forall j: nat | j < k - 1 ensures Near(x, y, j) != Near(x, y, k - 1) {
      NearDiffers(x, y, j, k - 1);
    }
  }

  lemma {:induction false} CountIsSeen(lines: int, columns: int, g: Grid, x: int, y: int, k: nat)
    requires Framed(lines, columns, g) && Inside(lines, columns, x, y) && k <= 8
    ensures CountTo(lines, columns, g, x, y, k) == |Seen(lines, columns, g, x, y, k)|
  {
    hide Near, At, Test, Framed;
    if k > 0 {
      CountIsSeen(lines, columns, g, x, y, k - 1);
      TestSees(lines, columns, g, x, y, k - 1);
      SeenGrows(lines, columns, g, x, y, k);
    }
  }

  /** The eight guarded tests count exactly the live neighbours on the board,
      provided the cells just past its edge hold 0. */
  lemma CountIsLiveNeighbours(lines: int, columns: int, g: Grid, x: int, y: int)
    requires Framed(lines, columns, g) && Inside(lines, columns, x, y)
    ensures CountTo(lines, columns, g, x, y, 8) == |LiveNeighbours(lines, columns, g, x, y)|
  {
    CountIsSeen(lines, columns, g, x, y, 8);
    var all, seen := LiveNeighbours(lines, columns, g, x, y), Seen(lines, columns, g, x, y, 8);
    forall p | p in all ensures p in seen {
      var k := if p.0 == x - 1 then p.1 - y + 1
               else if p.0 == x then (if p.1 < y then 3 else 4) else p.1 - y + 6;
      assert 0 <= k < 8 && Near(x, y, k) == p;
    }
    assert all == seen;
  }

  /** The program's cell computation is the reference rule. */
  lemma RuleIsNextCell(lines: int, columns: int, g: Grid, x: int, y: int)
    requires Framed(lines, columns, g) && Inside(lines, columns, x, y)
    ensures Rule(CountTo(lines, columns, g, x, y, 8), At(g, x, y)) == NextCell(lines, columns, g, x, y)
  {
    CountIsLiveNeighbours(lines, columns, g, x, y);
  }
}
