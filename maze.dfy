/** The maze grid and the dots and power pellets that scanning it produces. */
module MazeLayout {
  import opened GameTypes

  const MazeRows: int := 31
  const MazeColumns: int := 28

  /** 'X' is a wall, 'o' a dot, 'O' a power pellet and ' ' an empty tile; row 14 is the tunnel. */
  const Maze: seq<string> := [
    "XXXXXXXXXXXXXXXXXXXXXXXXXXXX",
    "XooooooooooooXXooooooooooooX",
    "XoXXXXoXXXXXoXXoXXXXXoXXXXoX",
    "XOXXXXoXXXXXoXXoXXXXXoXXXXOX",
    "XoXXXXoXXXXXoXXoXXXXXoXXXXoX",
    "XooooooooooooooooooooooooooX",
    "XoXXXXoXXoXXXXXXXXoXXoXXXXoX",
    "XoXXXXoXXoXXXXXXXXoXXoXXXXoX",
    "XooooooXXooooXXooooXXooooooX",
    "XXXXXXoXXXXX XX XXXXXoXXXXXX",
    "XXXXXXoXXXXX XX XXXXXoXXXXXX",
    "XXXXXXoXX          XXoXXXXXX",
    "XXXXXXoXX XXXXXXXX XXoXXXXXX",
    "XXXXXXoXX X      X XXoXXXXXX",
    "      o   X      X   o      ",
    "XXXXXXoXX X      X XXoXXXXXX",
    "XXXXXXoXX XXXXXXXX XXoXXXXXX",
    "XXXXXXoXX          XXoXXXXXX",
    "XXXXXXoXX XXXXXXXX XXoXXXXXX",
    "XXXXXXoXX XXXXXXXX XXoXXXXXX",
    "XooooooooooooXXooooooooooooX",
    "XoXXXXoXXXXXoXXoXXXXXoXXXXoX",
    "XoXXXXoXXXXXoXXoXXXXXoXXXXoX",
    "XOooXXooooooo  oooooooXXooOX",
    "XXXoXXoXXoXXXXXXXXoXXoXXoXXX",
    "XXXoXXoXXoXXXXXXXXoXXoXXoXXX",
    "XooooooXXooooXXooooXXooooooX",
    "XoXXXXXXXXXXoXXoXXXXXXXXXXoX",
    "XoXXXXXXXXXXoXXoXXXXXXXXXXoX",
    "XooooooooooooooooooooooooooX",
    "XXXXXXXXXXXXXXXXXXXXXXXXXXXX"
  ]

  /** The maze has MazeRows rows of MazeColumns tiles each. */
  lemma MazeShape()
    ensures |Maze| == MazeRows
    ensures forall row :: 0 <= row < |Maze| ==> |Maze[row]| == MazeColumns
  {
  }

  predicate IsDotTile(block: char) { block == 'o' || block == 'O' }

  /** The pickup a tile holds: a 10-point dot for 'o', a 50-point power pellet for 'O', none otherwise. */
  function TilePickup(block: char, row: nat, column: nat): seq<Pickup>
  {
    if block == 'o' then [Dot(PacDot, row, column, 10)]
    else if block == 'O' then [Dot(PowerPellet, row, column, 50)]
    else []
  }

  /** The pickups among the first n tiles of one row, left to right. */
  function RowPickups(blocks: seq<char>, row: nat, n: nat): seq<Pickup>
    requires n <= |blocks|
  {
    if n == 0 then [] else RowPickups(blocks, row, n - 1) + TilePickup(blocks[n - 1], row, n - 1)
  }

  /** The pickups of the first k rows, in row-major order. */
  function GridPickups(maze: seq<seq<char>>, k: nat): seq<Pickup>
    requires k <= |maze|
  {
    if k == 0 then [] else GridPickups(maze, k - 1) + RowPickups(maze[k - 1], k - 1, |maze[k - 1]|)
  }

  /** Every dot and power pellet of the maze, in the row-major order the maze is scanned. */
  function MazePickups(maze: seq<seq<char>>): seq<Pickup>
  {
    GridPickups(maze, |maze|)
  }

  /** A pickup that stands for the tile it was made from. */
  ghost predicate MadeFrom(maze: seq<seq<char>>, p: Pickup)
  {
    && p.Dot?
    && p.row < |maze| && p.column < |maze[p.row]|
    && IsDotTile(maze[p.row][p.column])
    && p == TilePickup(maze[p.row][p.column], p.row, p.column)[0]
  }

  lemma {:induction false} RowPickupsSound(maze: seq<seq<char>>, row: nat, n: nat)
    requires row < |maze| && n <= |maze[row]|
    ensures forall p :: p in RowPickups(maze[row], row, n) ==> MadeFrom(maze, p) && p.row == row && p.column < n
  {
    if n > 0 {
      RowPickupsSound(maze, row, n - 1);
    }
  }

  lemma {:induction false} GridPickupsSound(maze: seq<seq<char>>, k: nat)
    requires k <= |maze|
    ensures forall p :: p in GridPickups(maze, k) ==> MadeFrom(maze, p) && p.row < k
  {
    if k > 0 {
      GridPickupsSound(maze, k - 1);
      RowPickupsSound(maze, k - 1, |maze[k - 1]|);
    }
  }

  /** Every pickup comes from a dot or pellet tile of the maze, with that tile's kind and points. */
  lemma MazePickupsSound(maze: seq<seq<char>>)
    ensures forall p :: p in MazePickups(maze) ==> MadeFrom(maze, p)
    ensures forall p :: p in MazePickups(maze) ==> p.Dot? && p.points == (if p.kind == PacDot then 10 else 50)
  {
    GridPickupsSound(maze, |maze|);
  }

  lemma {:induction false} RowPickupsComplete(blocks: seq<char>, row: nat, n: nat, column: nat)
    requires n <= |blocks| && column < n && IsDotTile(blocks[column])
    ensures TilePickup(blocks[column], row, column)[0] in RowPickups(blocks, row, n)
  {
    if column < n - 1 {
      RowPickupsComplete(blocks, row, n - 1, column);
    }
  }

  lemma {:induction false} GridPickupsComplete(maze: seq<seq<char>>, k: nat, row: nat, column: nat)
    requires k <= |maze| && row < k && column < |maze[row]| && IsDotTile(maze[row][column])
    ensures TilePickup(maze[row][column], row, column)[0] in GridPickups(maze, k)
  {
    if row < k - 1 {
      GridPickupsComplete(maze, k - 1, row, column);
    } else {
      RowPickupsComplete(maze[row], row, |maze[row]|, column);
    }
  }

  /** Every dot and pellet tile of the maze produces its pickup. */
  lemma MazePickupsComplete(maze: seq<seq<char>>, row: nat, column: nat)
    requires row < |maze| && column < |maze[row]| && IsDotTile(maze[row][column])
    ensures TilePickup(maze[row][column], row, column)[0] in MazePickups(maze)
  {
    GridPickupsComplete(maze, |maze|, row, column);
  }

  /** Pickup p lies on an earlier tile than q in row-major order. */
  predicate Before(p: Pickup, q: Pickup)
    requires p.Dot? && q.Dot?
  {
    p.row < q.row || (p.row == q.row && p.column < q.column)
  }

  lemma {:induction false} RowPickupsOrdered(blocks: seq<char>, row: nat, n: nat)
    requires n <= |blocks|
    ensures forall i :: 0 <= i < |RowPickups(blocks, row, n)| ==>
      RowPickups(blocks, row, n)[i].Dot? && RowPickups(blocks, row, n)[i].row == row
    ensures forall i, j :: 0 <= i < j < |RowPickups(blocks, row, n)| ==>
      Before(RowPickups(blocks, row, n)[i], RowPickups(blocks, row, n)[j])
    ensures forall i :: 0 <= i < |RowPickups(blocks, row, n)| ==> RowPickups(blocks, row, n)[i].column < n
  {
    if n > 0 {
      RowPickupsOrdered(blocks, row, n - 1);
    }
  }

  lemma {:induction false} GridPickupsOrdered(maze: seq<seq<char>>, k: nat)
    requires k <= |maze|
    ensures forall i :: 0 <= i < |GridPickups(maze, k)| ==> GridPickups(maze, k)[i].Dot? && GridPickups(maze, k)[i].row < k
    ensures forall i, j :: 0 <= i < j < |GridPickups(maze, k)| ==>
      Before(GridPickups(maze, k)[i], GridPickups(maze, k)[j])
  {
    if k > 0 {
      GridPickupsOrdered(maze, k - 1);
      RowPickupsOrdered(maze[k - 1], k - 1, |maze[k - 1]|);
    }
  }

  /** The pickups are listed in strictly increasing row-major order, so no tile yields two pickups. */
  lemma MazePickupsOrdered(maze: seq<seq<char>>)
    ensures forall i, j :: 0 <= i < j < |MazePickups(maze)| ==>
      MazePickups(maze)[i].Dot? && MazePickups(maze)[j].Dot? && Before(MazePickups(maze)[i], MazePickups(maze)[j])
  {
    var ps := MazePickups(maze);
    GridPickupsOrdered(maze, |maze|);
    assert ps == GridPickups(maze, |maze|);
  }
}
