/** What the Game of Life is known for, proved of the rule the program plays. */
module LifeRules {
  import opened LifeBoard

  predicate Alive(g: Grid, x: int, y: int)
  {
    At(g, x, y) != 0
  }

  /** The live cells of the board in the three by three block around (x, y), the
      cell itself included. */
  function Block(lines: int, columns: int, g: Grid, x: int, y: int): set<(int, int)>
  {
    set i, j | x - 1 <= i <= x + 1 && y - 1 <= j <= y + 1 && Inside(lines, columns, i, j) && Alive(g, i, j) :: (i, j)
  }

  /** A cell lives next exactly when its block holds three live cells, or four
      of which it is one. */
  lemma BlockDecides(lines: int, columns: int, g: Grid, x: int, y: int)
    requires Inside(lines, columns, x, y)
    ensures var n := |Block(lines, columns, g, x, y)|;
            NextCell(lines, columns, g, x, y) == if n == 3 || (n == 4 && Alive(g, x, y)) then 1 else 0
  {
    var block, near := Block(lines, columns, g, x, y), LiveNeighbours(lines, columns, g, x, y);
    assert (x, y) !in near;
    assert block == if Alive(g, x, y) then near + {(x, y)} else near;
  }

  lemma {:induction false} FewerCells(a: set<(int, int)>, b: set<(int, int)>)
    requires a <= b
    ensures |a| <= |b|
    decreases |a|
  {
    if p :| p in a {
      FewerCells(a - {p}, b - {p});
    }
  }

  // ----- patterns

  /** A pattern says which cells of the board live. */
  type Pattern = (int, int) -> bool

  ghost predicate Shows(lines: int, columns: int, g: Grid, p: Pattern)
  {
    forall x, y :: Inside(lines, columns, x, y) ==> (Alive(g, x, y) <==> p(x, y))
  }

  /** Two by two cells with (x, y) first. */
  function Square(x: int, y: int): Pattern
  {
    (i, j) => x <= i <= x + 1 && y <= j <= y + 1
  }

  /** Three cells side by side, and three in a column, around (x, y). */
  function Row(x: int, y: int): Pattern
  {
    (i, j) => i == x && y - 1 <= j <= y + 1
  }

  function Column(x: int, y: int): Pattern
  {
    (i, j) => x - 1 <= i <= x + 1 && j == y
  }

  /** A pattern follows another on every board that shows it. */
  ghost predicate Becomes(lines: int, columns: int, p: Pattern, q: Pattern)
  {
    forall g: Grid | Shows(lines, columns, g, p) :: Shows(lines, columns, Life(lines, columns, g), q)
  }

  lemma SquareCell(lines: int, columns: int, g: Grid, x: int, y: int, i: int, j: int)
    requires Inside(lines, columns, x, y) && Inside(lines, columns, x + 1, y + 1) && Inside(lines, columns, i, j)
    requires Shows(lines, columns, g, Square(x, y))
    ensures NextCell(lines, columns, g, i, j) != 0 <==> Square(x, y)(i, j)
  {
    var block := Block(lines, columns, g, i, j);
    BlockDecides(lines, columns, g, i, j);
    if Square(x, y)(i, j) {
      assert block == {(x, y), (x, y + 1), (x + 1, y), (x + 1, y + 1)};
    } else if x <= i <= x + 1 {
      var k := if j < y then y else y + 1;
      assert block <= {(x, k), (x + 1, k)};
      FewerCells(block, {(x, k), (x + 1, k)});
    } else {
      var k := if i < x then x else x + 1;
      assert block <= {(k, y), (k, y + 1)};
      FewerCells(block, {(k, y), (k, y + 1)});
    }
  }

  lemma RowCell(lines: int, columns: int, g: Grid, x: int, y: int, i: int, j: int)
    requires Inside(lines, columns, x, y - 1) && Inside(lines, columns, x, y + 1) && Inside(lines, columns, i, j)
    requires Shows(lines, columns, g, Row(x, y))
    ensures NextCell(lines, columns, g, i, j) != 0 <==> Column(x, y)(i, j)
  {
    var block := Block(lines, columns, g, i, j);
    BlockDecides(lines, columns, g, i, j);
    if Column(x, y)(i, j) {
      assert block == {(x, y - 1), (x, y), (x, y + 1)};
    } else {
      var few := if j < y then {(x, y - 1), (x, y)} else if y < j then {(x, y), (x, y + 1)} else {};
      assert block <= few;
      FewerCells(block, few);
    }
  }

  lemma ColumnCell(lines: int, columns: int, g: Grid, x: int, y: int, i: int, j: int)
    requires Inside(lines, columns, x - 1, y) && Inside(lines, columns, x + 1, y) && Inside(lines, columns, i, j)
    requires Shows(lines, columns, g, Column(x, y))
    ensures NextCell(lines, columns, g, i, j) != 0 <==> Row(x, y)(i, j)
  {
    var block := Block(lines, columns, g, i, j);
    BlockDecides(lines, columns, g, i, j);
    if Row(x, y)(i, j) {
      assert block == {(x - 1, y), (x, y), (x + 1, y)};
    } else {
      var few := if i < x then {(x - 1, y), (x, y)} else if x < i then {(x, y), (x + 1, y)} else {};
      assert block <= few;
      FewerCells(block, few);
    }
  }

  lemma ByCells(lines: int, columns: int, g: Grid, q: Pattern)
    requires forall i, j :: Inside(lines, columns, i, j) ==> (NextCell(lines, columns, g, i, j) != 0 <==> q(i, j))
    ensures Shows(lines, columns, Life(lines, columns, g), q)
  {
    hide NextCell;
    LifeCells(lines, columns, g, Life(lines, columns, g));
  }

  /** A square stays, wherever it lies on the board; a row of three turns into a
      column and a column into a row. */
  lemma SquareStays(lines: int, columns: int, x: int, y: int)
    requires Inside(lines, columns, x, y) && Inside(lines, columns, x + 1, y + 1)
    ensures Becomes(lines, columns, Square(x, y), Square(x, y))
  {
    hide NextCell, Life;
    forall g: Grid | Shows(lines, columns, g, Square(x, y))
      ensures Shows(lines, columns, Life(lines, columns, g), Square(x, y))
    {
      forall i, j | Inside(lines, columns, i, j)
        ensures NextCell(lines, columns, g, i, j) != 0 <==> Square(x, y)(i, j)
      {
        SquareCell(lines, columns, g, x, y, i, j);
      }
      ByCells(lines, columns, g, Square(x, y));
    }
  }

  lemma RowTurns(lines: int, columns: int, x: int, y: int)
    requires Inside(lines, columns, x, y - 1) && Inside(lines, columns, x, y + 1)
    ensures Becomes(lines, columns, Row(x, y), Column(x, y))
  {
    hide NextCell, Life;
    forall g: Grid | Shows(lines, columns, g, Row(x, y))
      ensures Shows(lines, columns, Life(lines, columns, g), Column(x, y))
    {
      forall i, j | Inside(lines, columns, i, j)
        ensures NextCell(lines, columns, g, i, j) != 0 <==> Column(x, y)(i, j)
      {
        RowCell(lines, columns, g, x, y, i, j);
      }
      ByCells(lines, columns, g, Column(x, y));
    }
  }

  lemma ColumnTurns(lines: int, columns: int, x: int, y: int)
    requires Inside(lines, columns, x - 1, y) && Inside(lines, columns, x + 1, y)
    ensures Becomes(lines, columns, Column(x, y), Row(x, y))
  {
    hide NextCell, Life;
    forall g: Grid | Shows(lines, columns, g, Column(x, y))
      ensures Shows(lines, columns, Life(lines, columns, g), Row(x, y))
    {
      forall i, j | Inside(lines, columns, i, j)
        ensures NextCell(lines, columns, g, i, j) != 0 <==> Row(x, y)(i, j)
      {
        ColumnCell(lines, columns, g, x, y, i, j);
      }
      ByCells(lines, columns, g, Row(x, y));
    }
  }

  // ----- for ever

  lemma {:induction false} StillLife(lines: int, columns: int, g: Grid, x: int, y: int, k: nat)
    requires Inside(lines, columns, x, y) && Inside(lines, columns, x + 1, y + 1)
    requires Shows(lines, columns, g, Square(x, y))
    ensures Shows(lines, columns, Gen(lines, columns, g, k), Square(x, y))
  {
    hide Life, Shows;
    if k > 0 {
      StillLife(lines, columns, g, x, y, k - 1);
      SquareStays(lines, columns, x, y);
    }
  }

  /** With its neighbourhood on the board, a row of three is back after every
      second generation, and a column after the others. */
  lemma {:induction false} Blinker(lines: int, columns: int, g: Grid, x: int, y: int, k: nat)
    requires Inside(lines, columns, x - 1, y - 1) && Inside(lines, columns, x + 1, y + 1)
    requires Shows(lines, columns, g, Row(x, y))
    ensures Shows(lines, columns, Gen(lines, columns, g, 2 * k), Row(x, y))
    ensures Shows(lines, columns, Gen(lines, columns, g, 2 * k + 1), Column(x, y))
  {
    hide Life, Shows, Row, Column;
    RowTurns(lines, columns, x, y);
    ColumnTurns(lines, columns, x, y);
    if k == 0 {
      assert Gen(lines, columns, g, 0) == g;
    } else {
      Blinker(lines, columns, g, x, y, k - 1);
      NextGen(lines, columns, g, 2 * k - 1);
    }
    NextGen(lines, columns, g, 2 * k);
  }

  lemma NextGen(lines: int, columns: int, g: Grid, k: nat)
    ensures Gen(lines, columns, g, k + 1) == Life(lines, columns, Gen(lines, columns, g, k))
  {
  }
}
