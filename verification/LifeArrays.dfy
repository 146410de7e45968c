/** The sequential parts of the Game of Life, on the two shared arrays. */
module LifeArrays {
  import opened LifeBoard

  function GridOf(a: array2<int>): (g: Grid)
    reads a
    ensures forall x, y :: At(g, x, y) == if 0 <= x < a.Length0 && 0 <= y < a.Length1 then a[x, y] else 0
  {
    map x: int, y: int | 0 <= x < a.Length0 && 0 <= y < a.Length1 :: (x, y) := a[x, y]
  }

  /** The globals the workers and the parent share. */
  class Game {
    const before: array2<int>
    const after: array2<int>
    const lineSize: int
    const columnSize: int

    /** A board that leaves a line and a column of the arrays free. */
    ghost predicate Shaped()
      reads this
    {
      before != after
      && before.Length0 == before.Length1 == after.Length0 == after.Length1 == MAXGRID
      && 0 <= lineSize < MAXGRID && 0 <= columnSize < MAXGRID
    }

    /** And `before` holds 0 off the board. */
    ghost predicate Valid()
      reads this, before
    {
      Shaped() && Framed(lineSize, columnSize, GridOf(before))
    }

    constructor (lines: int, columns: int)
      requires 0 <= lines < MAXGRID && 0 <= columns < MAXGRID
      ensures Valid() && fresh(before) && fresh(after)
      ensures lineSize == lines && columnSize == columns
      ensures forall x, y :: At(GridOf(before), x, y) == 0 == At(GridOf(after), x, y)
    {
      lineSize, columnSize := lines, columns;
      before := new int[MAXGRID, MAXGRID]((i, j) => 0);
      after := new int[MAXGRID, MAXGRID]((i, j) => 0);
    }

    /** The number of live neighbours, by eight guarded tests. */
    method GetNumberOfNeighbors(line: int, column: int) returns (counter: int)
      requires Valid() && Inside(lineSize, columnSize, line, column)
      ensures counter == |LiveNeighbours(lineSize, columnSize, GridOf(before), line, column)|
    {
      counter := EightTests(line, column, GridOf(before));
      CountIsLiveNeighbours(lineSize, columnSize, GridOf(before), line, column);
    }

    /** g gives the cells of `before`. */
    ghost predicate Shows(g: Grid)
      reads this, before
    {
      forall x, y :: 0 <= x < before.Length0 && 0 <= y < before.Length1 ==> At(g, x, y) == before[x, y]
    }

    method EightTests(line: int, column: int, ghost g: Grid) returns (counter: int)
      requires Shaped() && Shows(g) && Inside(lineSize, columnSize, line, column)
      ensures counter == CountTo(lineSize, columnSize, g, line, column, 8)
    {
      hide CountTo;
      counter := 0;
      ghost var k := 0;
      if line - 1 >= 0 && column - 1 >= 0 && before[line - 1, column - 1] != 0 {
        counter := counter + 1;
      }
      k := Tally(lineSize, columnSize, g, line, column, k, counter);
      if line - 1 >= 0 && before[line - 1, column] != 0 {
        counter := counter + 1;
      }
      k := Tally(lineSize, columnSize, g, line, column, k, counter);
      if line - 1 >= 0 && column + 1 <= columnSize && before[line - 1, column + 1] != 0 {
        counter := counter + 1;
      }
      k := Tally(lineSize, columnSize, g, line, column, k, counter);
      if column - 1 >= 0 && before[line, column - 1] != 0 {
        counter := counter + 1;
      }
      k := Tally(lineSize, columnSize, g, line, column, k, counter);
      if column + 1 <= columnSize && before[line, column + 1] != 0 {
        counter := counter + 1;
      }
      k := Tally(lineSize, columnSize, g, line, column, k, counter);
      if line + 1 <= lineSize && column - 1 >= 0 && before[line + 1, column - 1] != 0 {
        counter := counter + 1;
      }
      k := Tally(lineSize, columnSize, g, line, column, k, counter);
      if line + 1 <= lineSize && before[line + 1, column] != 0 {
        counter := counter + 1;
      }
      k := Tally(lineSize, columnSize, g, line, column, k, counter);
      if line + 1 <= lineSize && column + 1 <= columnSize && before[line + 1, column + 1] != 0 {
        counter := counter + 1;
      }
      k := Tally(lineSize, columnSize, g, line, column, k, counter);
    }

    /** One generation of the lines lineFrom..lineTo, as a worker plays it: they
        become the next board, and nothing else changes. */
    method PlayLines(lineFrom: int, lineTo: int)
      requires Valid() && 0 <= lineFrom && lineTo < lineSize
      modifies after
      ensures Valid()
      ensures forall x, y :: lineFrom <= x <= lineTo && 0 <= y < columnSize ==>
                after[x, y] == NextCell(lineSize, columnSize, GridOf(before), x, y)
      ensures forall x, y :: 0 <= x < MAXGRID && 0 <= y < MAXGRID && !(lineFrom <= x <= lineTo && y < columnSize) ==>
                after[x, y] == old(after[x, y])
    {
      hide NextCell, Framed;
      ghost var g := GridOf(before);
      var line := lineFrom;
      while line <= lineTo
        invariant lineFrom <= line
        invariant line <= lineTo + 1 || line == lineFrom
        invariant GridOf(before) == g
        invariant forall x, y :: lineFrom <= x < line && 0 <= y < columnSize ==>
                    after[x, y] == NextCell(lineSize, columnSize, g, x, y)
        invariant forall x, y :: 0 <= x < MAXGRID && 0 <= y < MAXGRID && !(lineFrom <= x < line && y < columnSize) ==>
                    after[x, y] == old(after[x, y])
      {
        PlayLine(line);
        line := line + 1;
      }
    }

    method PlayLine(line: int)
      requires Valid() && 0 <= line < lineSize
      modifies after
      ensures GridOf(before) == old(GridOf(before))
      ensures forall y :: 0 <= y < columnSize ==>
                after[line, y] == NextCell(lineSize, columnSize, GridOf(before), line, y)
      ensures forall x, y :: 0 <= x < MAXGRID && 0 <= y < MAXGRID && !(x == line && 0 <= y < columnSize) ==>
                after[x, y] == old(after[x, y])
    {
      hide NextCell, Framed;
      ghost var g := GridOf(before);
      var column := 0;
      while column < columnSize
        invariant 0 <= column <= columnSize
        invariant GridOf(before) == g
        invariant forall y :: 0 <= y < column ==> after[line, y] == NextCell(lineSize, columnSize, g, line, y)
        invariant forall x, y :: 0 <= x < MAXGRID && 0 <= y < MAXGRID && !(x == line && 0 <= y < column) ==>
                    after[x, y] == old(after[x, y])
      {
        PlayCell(line, column);
        column := column + 1;
      }
    }

    method PlayCell(line: int, column: int)
      requires Valid() && Inside(lineSize, columnSize, line, column)
      modifies after
      ensures GridOf(before) == old(GridOf(before))
      ensures after[line, column] == NextCell(lineSize, columnSize, GridOf(before), line, column)
      ensures forall x, y :: 0 <= x < MAXGRID && 0 <= y < MAXGRID && (x, y) != (line, column) ==>
                after[x, y] == old(after[x, y])
    {
      var numNeighbors := GetNumberOfNeighbors(line, column);
      if numNeighbors <= 1 || numNeighbors >= 4 {
        after[line, column] := 0;
      } else if numNeighbors == 3 {
        after[line, column] := 1;
      } else if numNeighbors == 2 && before[line, column] != 0 {
        after[line, column] := 1;
      } else {
        after[line, column] := before[line, column];
      }
    }

    /** Copies the board of `after` back. */
    method UpdateMatrix()
      requires Valid()
      modifies before
      ensures Valid()
      ensures forall x, y :: 0 <= x < MAXGRID && 0 <= y < MAXGRID ==>
                before[x, y] == if x < lineSize && y < columnSize then after[x, y] else 0
    {
      ZeroOutside();
      UpdateLines();
    }

    /** The cells of `before` off the board, as the array holds them. */
    lemma ZeroOutside()
      requires Valid()
      ensures forall x, y :: 0 <= x < MAXGRID && 0 <= y < MAXGRID && !(x < lineSize && y < columnSize) ==> before[x, y] == 0
    {
      forall x, y | 0 <= x < MAXGRID && 0 <= y < MAXGRID && !(x < lineSize && y < columnSize) ensures before[x, y] == 0 {
        assert At(GridOf(before), x, y) == 0;
      }
    }

    method UpdateLines()
      requires Shaped()
      requires forall x, y :: 0 <= x < MAXGRID && 0 <= y < MAXGRID && !(x < lineSize && y < columnSize) ==> before[x, y] == 0
      modifies before
      ensures forall x, y :: 0 <= x < MAXGRID && 0 <= y < MAXGRID ==>
                before[x, y] == if x < lineSize && y < columnSize then after[x, y] else 0
    {
      var i := 0;
      while i < lineSize
        invariant 0 <= i <= lineSize
        invariant forall x, y :: 0 <= x < i && 0 <= y < columnSize ==> before[x, y] == after[x, y]
        invariant forall x, y :: 0 <= x < MAXGRID && 0 <= y < MAXGRID && !(x < i && y < columnSize) ==>
                    before[x, y] == old(before[x, y])
      {
        UpdateLine(i);
        i := i + 1;
      }
    }

    method UpdateLine(i: int)
      requires Shaped() && 0 <= i < lineSize
      modifies before
      ensures forall y :: 0 <= y < columnSize ==> before[i, y] == after[i, y]
      ensures forall x, y :: 0 <= x < MAXGRID && 0 <= y < MAXGRID && !(x == i && 0 <= y < columnSize) ==>
                before[x, y] == old(before[x, y])
    {
      var j := 0;
      while j < columnSize
        invariant 0 <= j <= columnSize
        invariant forall y :: 0 <= y < j ==> before[i, y] == after[i, y]
        invariant forall x, y :: 0 <= x < MAXGRID && 0 <= y < MAXGRID && !(x == i && 0 <= y < j) ==>
                    before[x, y] == old(before[x, y])
      {
        before[i, j] := after[i, j];
        j := j + 1;
      }
    }

    method IsAllZero() returns (isZero: bool)
      requires Shaped()
      ensures isZero <==> AllDead(lineSize, columnSize, GridOf(after))
    {
      isZero := true;
      var i := 0;
      while i < lineSize
        invariant 0 <= i <= lineSize
        invariant isZero <==> forall x, y :: 0 <= x < i && 0 <= y < columnSize ==> after[x, y] == 0
      {
        var j := 0;
        while j < columnSize
          invariant 0 <= j <= columnSize
          invariant isZero <==> (forall x, y :: 0 <= x < i && 0 <= y < columnSize ==> after[x, y] == 0)
                                && forall y :: 0 <= y < j ==> after[i, y] == 0
        {
          if after[i, j] != 0 {
            isZero := false;
          }
          j := j + 1;
        }
        i := i + 1;
      }
      assert isZero ==> forall x, y :: Inside(lineSize, columnSize, x, y) ==> At(GridOf(after), x, y) == after[x, y];
      if AllDead(lineSize, columnSize, GridOf(after)) {
        forall x, y | 0 <= x < lineSize && 0 <= y < columnSize ensures after[x, y] == 0 {
          assert At(GridOf(after), x, y) == 0;
        }
      }
    }

    method HasNotChanged() returns (notChanged: bool)
      requires Shaped()
      ensures notChanged <==> SameBoard(lineSize, columnSize, GridOf(before), GridOf(after))
    {
      notChanged := true;
      var i := 0;
      while i < lineSize
        invariant 0 <= i <= lineSize
        invariant notChanged <==> forall x, y :: 0 <= x < i && 0 <= y < columnSize ==> before[x, y] == after[x, y]
      {
        var j := 0;
        while j < columnSize
          invariant 0 <= j <= columnSize
          invariant notChanged <==> (forall x, y :: 0 <= x < i && 0 <= y < columnSize ==> before[x, y] == after[x, y])
                                    && forall y :: 0 <= y < j ==> before[i, y] == after[i, y]
        {
          if before[i, j] != after[i, j] {
            notChanged := false;
          }
          j := j + 1;
        }
        i := i + 1;
      }
      if SameBoard(lineSize, columnSize, GridOf(before), GridOf(after)) {
        forall x, y | 0 <= x < lineSize && 0 <= y < columnSize ensures before[x, y] == after[x, y] {
          assert At(GridOf(before), x, y) == At(GridOf(after), x, y);
        }
      }
    }
  }

  /** One more test done. */
  lemma Tally(lines: int, columns: int, g: Grid, x: int, y: int, k: nat, counter: int) returns (next: nat)
    requires counter == (if k == 0 then 0 else CountTo(lines, columns, g, x, y, k))
                        + if Test(lines, columns, g, x, y, k) then 1 else 0
    ensures next == k + 1 && counter == CountTo(lines, columns, g, x, y, next)
  {
    next := k + 1;
  }
}
