/** The lists the coordinator keeps and builds: ghost names, the entity list and the pickups. */
module EntityLists {
  import opened GameTypes
  import opened MazeLayout

  /** One call of the given kind on each named ghost, in order. */
  function Broadcast(names: seq<GhostName>, kind: GhostCallKind): (r: seq<Call>)
    ensures |r| == |names|
    ensures forall i :: 0 <= i < |names| ==> r[i] == GhostCall(kind, names[i])
  {
    if names == [] then [] else Broadcast(names[..|names| - 1], kind) + [GhostCall(kind, names[|names| - 1])]
  }

  /** The names of the ghosts that are not in eyes mode, in list order: those a power pellet scares. */
  function ScaredNames(ghosts: seq<Ghost>): (r: seq<GhostName>)
    ensures |r| <= |ghosts|
  {
    if ghosts == [] then []
    else
      var last := ghosts[|ghosts| - 1];
      ScaredNames(ghosts[..|ghosts| - 1]) + (if last.mode != Eyes then [last.name] else [])
  }

  /** A ghost name is scared exactly when some ghost of that name is not in eyes mode. */
  lemma {:induction false} ScaredNamesMembers(ghosts: seq<Ghost>)
    ensures forall n :: n in ScaredNames(ghosts) <==> exists g :: g in ghosts && g.name == n && g.mode != Eyes
  {
    if ghosts != [] {
      var init := ghosts[..|ghosts| - 1];
      var last := ghosts[|ghosts| - 1];
      assert ghosts == init + [last];
      ScaredNamesMembers(init);
      forall n | n in ScaredNames(ghosts)
        ensures exists g :: g in ghosts && g.name == n && g.mode != Eyes
      {
        if n in ScaredNames(init) {
          var g :| g in init && g.name == n && g.mode != Eyes;
          assert g in ghosts;
        } else {
          assert last.name == n && last.mode != Eyes;
        }
      }
    }
  }

  /** The list with every entry for the given ghost removed, the others kept in order. */
  function WithoutGhost(names: seq<GhostName>, name: GhostName): (r: seq<GhostName>)
    ensures |r| <= |names|
  {
    if names == [] then []
    else if names[0] == name then WithoutGhost(names[1..], name)
    else [names[0]] + WithoutGhost(names[1..], name)
  }

  /** Exactly the other ghosts' entries are kept, and a list without the ghost is left as it is. */
  lemma {:induction false} WithoutGhostMembers(names: seq<GhostName>, name: GhostName)
    ensures forall n :: n in WithoutGhost(names, name) <==> n in names && n != name
    ensures name !in names ==> WithoutGhost(names, name) == names
  {
    if names != [] {
      WithoutGhostMembers(names[1..], name);
      assert names == [names[0]] + names[1..];
    }
  }

  /** A pacman entry enabled exactly when its index is below the number of players; other entries as they were. */
  function EnableFor(e: Entity, pacmenOnLevel: int): Entity
  {
    if e.PacmanEntity? then PacmanEntity(e.pacmanIndex, e.pacmanIndex < pacmenOnLevel) else e
  }

  /** setupForLevel's pass over the entity list. */
  function EnablePacmen(entities: seq<Entity>, pacmenOnLevel: int): (r: seq<Entity>)
    ensures |r| == |entities|
    ensures forall i :: 0 <= i < |r| ==> r[i] == EnableFor(entities[i], pacmenOnLevel)
  {
    seq(|entities|, i requires 0 <= i < |entities| => EnableFor(entities[i], pacmenOnLevel))
  }

  /** After setupForLevel's pass every pacman is enabled iff its index is below the number of
      players, and nothing else in the list changes. */
  lemma PacmenEnabledByIndex(entities: seq<Entity>, pacmenOnLevel: int, i: int)
    requires 0 <= i < |entities|
    ensures entities[i].PacmanEntity? ==>
              EnablePacmen(entities, pacmenOnLevel)[i] == PacmanEntity(entities[i].pacmanIndex, entities[i].pacmanIndex < pacmenOnLevel)
    ensures !entities[i].PacmanEntity? ==> EnablePacmen(entities, pacmenOnLevel)[i] == entities[i]
  {
  }

  /** Pickups as entity-list entries, in order. */
  function AsEntities(ps: seq<Pickup>): (r: seq<Entity>)
    ensures |r| == |ps|
    ensures forall i :: 0 <= i < |ps| ==> r[i] == PickupEntity(ps[i])
  {
    seq(|ps|, i requires 0 <= i < |ps| => PickupEntity(ps[i]))
  }

  lemma AsEntitiesSnoc(ps: seq<Pickup>, p: Pickup)
    ensures AsEntities(ps + [p]) == AsEntities(ps) + [PickupEntity(p)]
  {
  }

  lemma AsEntitiesAppend(a: seq<Pickup>, b: seq<Pickup>)
    ensures AsEntities(a + b) == AsEntities(a) + AsEntities(b)
  {
  }

  /** drawMaze's inner loop over one row: each dot or pellet tile is appended to the pickups and
      the entity list and counted. */
  method ScanRow(blocks: seq<char>, row: nat, pickups: seq<Pickup>, entities: seq<Entity>, count: int)
    returns (pickups': seq<Pickup>, entities': seq<Entity>, count': int)
    ensures pickups' == pickups + RowPickups(blocks, row, |blocks|)
    ensures entities' == entities + AsEntities(RowPickups(blocks, row, |blocks|))
    ensures count' == count + |RowPickups(blocks, row, |blocks|)|
  {
    pickups', entities', count' := pickups, entities, count;
    ghost var dots: seq<Pickup> := [];
    var column := 0;
    while column < |blocks|
      invariant 0 <= column <= |blocks|
      invariant dots == RowPickups(blocks, row, column)
      invariant pickups' == pickups + dots
      invariant entities' == entities + AsEntities(dots)
      invariant count' == count + |dots|
    {
      var block := blocks[column];
      ghost var tile := TilePickup(block, row, column);
      assert RowPickups(blocks, row, column + 1) == dots + tile;
      if block == 'o' || block == 'O' {
        var dot := Dot(if block == 'o' then PacDot else PowerPellet, row, column, if block == 'o' then 10 else 50);
        assert tile == [dot];
        AsEntitiesSnoc(dots, dot);
        entities' := entities' + [PickupEntity(dot)];
        pickups' := pickups' + [dot];
        count' := count' + 1;
        dots := dots + [dot];
      } else {
        assert tile == [];
        assert dots + tile == dots;
      }
      column := column + 1;
    }
  }

  /** The pickups other than the fruit, in order. */
  function NonFruit(ps: seq<Pickup>): (r: seq<Pickup>)
    ensures |r| <= |ps|
  {
    if ps == [] then []
    else NonFruit(ps[..|ps| - 1]) + (if ps[|ps| - 1] != Fruit then [ps[|ps| - 1]] else [])
  }

  /** NonFruit keeps every pickup except the fruit. */
  lemma {:induction false} NonFruitMembers(ps: seq<Pickup>)
    ensures forall p :: p in NonFruit(ps) <==> p in ps && p != Fruit
  {
    if ps != [] {
      NonFruitMembers(ps[..|ps| - 1]);
      assert ps == ps[..|ps| - 1] + [ps[|ps| - 1]];
    }
  }

  /** The number of dot and pellet entries in an entity list. */
  function CountDots(entities: seq<Entity>): (n: nat)
    ensures n <= |entities|
  {
    if entities == [] then 0
    else
      var last := entities[|entities| - 1];
      CountDots(entities[..|entities| - 1]) + (if last.PickupEntity? && last.pickup != Fruit then 1 else 0)
  }

  /** The count is zero exactly when the list holds no dot or pellet. */
  lemma {:induction false} CountDotsZero(entities: seq<Entity>)
    ensures CountDots(entities) == 0 <==> forall e :: e in entities ==> !(e.PickupEntity? && e.pickup != Fruit)
  {
    if entities != [] {
      CountDotsZero(entities[..|entities| - 1]);
      assert entities == entities[..|entities| - 1] + [entities[|entities| - 1]];
    }
  }

  /** Every maze pickup listed as an entity counts as a dot. */
  lemma {:induction false} CountDotsOfPickups(ps: seq<Pickup>)
    requires forall i :: 0 <= i < |ps| ==> ps[i] != Fruit
    ensures CountDots(AsEntities(ps)) == |ps|
  {
    if ps != [] {
      CountDotsOfPickups(ps[..|ps| - 1]);
      assert AsEntities(ps)[..|ps| - 1] == AsEntities(ps[..|ps| - 1]);
    }
  }

  /** One row of drawMaze's scan extends the pickups and the entity list by that row's pickups. */
  lemma ScanMazeStep(maze: seq<seq<char>>, row: nat, entities: seq<Entity>, dots: seq<Pickup>,
                     pickups': seq<Pickup>, entities': seq<Entity>)
    requires row < |maze| && dots == GridPickups(maze, row)
    requires pickups' == [Fruit] + dots + RowPickups(maze[row], row, |maze[row]|)
    requires entities' == entities + AsEntities(dots) + AsEntities(RowPickups(maze[row], row, |maze[row]|))
    ensures pickups' == [Fruit] + GridPickups(maze, row + 1)
    ensures entities' == entities + AsEntities(GridPickups(maze, row + 1))
  {
    var rowDots := RowPickups(maze[row], row, |maze[row]|);
    assert GridPickups(maze, row + 1) == dots + rowDots;
    assert pickups' == [Fruit] + (dots + rowDots);
    AsEntitiesAppend(dots, rowDots);
    assert entities' == entities + (AsEntities(dots) + AsEntities(rowDots));
  }

  /** drawMaze's scan of the grid, row by row: the fruit followed by every dot and pellet, each
      also appended to the entity list and counted. */
  method ScanMaze(maze: seq<seq<char>>, entities: seq<Entity>, count: int)
    returns (pickups': seq<Pickup>, entities': seq<Entity>, count': int)
    ensures pickups' == [Fruit] + MazePickups(maze)
    ensures entities' == entities + AsEntities(MazePickups(maze))
    ensures count' == count + |MazePickups(maze)|
  {
    pickups', entities', count' := [Fruit], entities, count;
    ghost var dots: seq<Pickup> := [];
    var row := 0;
    while row < |maze|
      invariant 0 <= row <= |maze|
      invariant dots == GridPickups(maze, row)
      invariant pickups' == [Fruit] + dots
      invariant entities' == entities + AsEntities(dots)
      invariant count' == count + |dots|
    {
      pickups', entities', count' := ScanRow(maze[row], row, pickups', entities', count');
      ScanMazeStep(maze, row, entities, dots, pickups', entities');
      dots := GridPickups(maze, row + 1);
      row := row + 1;
    }
  }

  /** The maze's pickups never include the fruit. */
  lemma MazeHasNoFruit(maze: seq<seq<char>>)
    ensures forall i :: 0 <= i < |MazePickups(maze)| ==> MazePickups(maze)[i] != Fruit
  {
    MazePickupsOrdered(maze);
    forall i | 0 <= i < |MazePickups(maze)| ensures MazePickups(maze)[i] != Fruit {
      MazePickupsSound(maze);
      assert MazePickups(maze)[i] in MazePickups(maze);
    }
  }

  /** NonFruit drops a leading fruit and keeps a list without fruit as it is. */
  lemma {:induction false} NonFruitKeeps(ps: seq<Pickup>)
    requires forall i :: 0 <= i < |ps| ==> ps[i] != Fruit
    ensures NonFruit(ps) == ps && NonFruit([Fruit] + ps) == ps
  {
    if ps != [] {
      var init := ps[..|ps| - 1];
      NonFruitKeeps(init);
      assert ([Fruit] + ps)[..|ps|] == [Fruit] + init;
      assert init + [ps[|ps| - 1]] == ps;
    }
  }
}
