/**
 * `TerrainManager`: ten tiles of 35 units laid end to end along -z around
 * the player's start, each furnished from the next level configuration; the
 * tile the player has left 1.5 tile lengths behind is moved to the far end
 * and furnished again, so the road never ends and never changes shape.
 */
module TerrainStreaming {
  import opened Maths
  import opened Options
  import opened SkeletalAnimation
  import opened Terrain
  import opened LevelConfig

  // ---------------------------------------------------------------------------
  // The layout of the road

  /** Tiles in a row: all on one line in x and y, each one tile length further along -z than the one before. */
  predicate Spaced(layout: seq<Vec3>, tileLength: real)
  {
    forall i :: 0 <= i < |layout| - 1 ==>
      layout[i + 1] == Vec3(layout[i].x, layout[i].y, layout[i].z - tileLength)
  }

  /** Where `init` puts the tiles: two tiles behind the player's start, the rest ahead. */
  function InitialLayout(start: Vec3, n: nat, tileLength: real): (r: seq<Vec3>)
    ensures |r| == n
  {
    seq(n, i requires 0 <= i < n => Vec3(start.x, start.y, start.z + (2 - i) as real * tileLength))
  }

  /** The layout `init` builds is a row with the player's start inside the third tile's slot. */
  lemma InitialLayoutSpaced(start: Vec3, n: nat, tileLength: real)
    ensures Spaced(InitialLayout(start, n, tileLength), tileLength)
    ensures n > 2 ==> InitialLayout(start, n, tileLength)[2] == start
    ensures n > 0 ==> InitialLayout(start, n, tileLength)[0].z == start.z + 2.0 * tileLength
  {
    var r := InitialLayout(start, n, tileLength);
    forall i | 0 <= i < n - 1
      ensures r[i + 1] == Vec3(r[i].x, r[i].y, r[i].z - tileLength)
    {
      assert (2 - (i + 1)) as real * tileLength == (2 - i) as real * tileLength - tileLength;
    }
  }

  /** `update` recycles when the player is more than 1.5 tile lengths past the first tile. */
  predicate Recycles(layout: seq<Vec3>, playerZ: real, tileLength: real)
  {
    |layout| > 0 && playerZ < layout[0].z - tileLength * 1.5
  }

  /** The layout after a recycle: the first tile moved one tile length past the last. */
  function Recycled(layout: seq<Vec3>, tileLength: real): (r: seq<Vec3>)
    requires |layout| > 0
    ensures |r| == |layout|
  {
    var back := layout[|layout| - 1];
    layout[1..] + [Vec3(back.x, back.y, back.z - tileLength)]
  }

  /**
   * Recycling keeps the road a row of the same number of tiles, and moves it
   * as a whole by one tile length along -z: every slot is the old slot shifted.
   */
  lemma RecycleShiftsRoad(layout: seq<Vec3>, tileLength: real)
    requires |layout| > 0 && Spaced(layout, tileLength)
    ensures Spaced(Recycled(layout, tileLength), tileLength)
    ensures forall i :: 0 <= i < |layout| ==>
      Recycled(layout, tileLength)[i] == Vec3(layout[i].x, layout[i].y, layout[i].z - tileLength)
  {
    var r := Recycled(layout, tileLength);
    forall i | 0 <= i < |layout|
      ensures r[i] == Vec3(layout[i].x, layout[i].y, layout[i].z - tileLength)
    {
      if i < |layout| - 1 {
        assert r[i] == layout[i + 1];
      }
    }
  }

  // ---------------------------------------------------------------------------
  // Configurations dealt

  /** One more call of `getNextConfig` moves the index on by one, wrapping round. */
  lemma DealStep(configs: seq<TileConfig>, idx: nat, k: nat)
    requires idx < |configs|
    ensures Deal(configs, idx, k + 1).1 == (Deal(configs, idx, k).1 + 1) % |configs|
    ensures Deal(configs, idx, k + 1).0 == Deal(configs, idx, k).0 + [configs[Deal(configs, idx, k).1]]
  {
  }

  /** The `rand()` draws that furnish one tile. */
  datatype TileRolls = TileRolls(
    config: ConfigRoll, kinds: nat -> nat, obstacle: ObstacleRoll, decorations: nat -> DecorationRoll)

  /** The sum of the reports of a collision pass over every tile. */
  function TotalTouching(lists: seq<seq<Obstacle>>, playerPos: Vec3, playerRadius: real): (n: nat)
  {
    if lists == [] then 0
    else TotalTouching(lists[..|lists| - 1], playerPos, playerRadius) + Touching(lists[|lists| - 1], playerPos, playerRadius)
  }

  /** The road's report over the first `i + 1` tiles adds tile `i`'s to that over the first `i`. */
  lemma TotalTouchingStep(lists: seq<seq<Obstacle>>, i: nat, playerPos: Vec3, playerRadius: real)
    requires i < |lists|
    ensures TotalTouching(lists[..i + 1], playerPos, playerRadius) ==
      TotalTouching(lists[..i], playerPos, playerRadius) + Touching(lists[i], playerPos, playerRadius)
  {
    assert lists[..i + 1][..i] == lists[..i];
  }

  /** A collision pass over every tile. */
  function StruckAll(lists: seq<seq<Obstacle>>, playerPos: Vec3, playerRadius: real): (r: seq<seq<Obstacle>>)
    ensures |r| == |lists|
  {
    seq(|lists|, i requires 0 <= i < |lists| => Struck(lists[i], playerPos, playerRadius))
  }

  /** A second pass over the whole road at the same place reports nothing: each obstacle triggers once. */
  lemma {:induction false} RoadStrikeOnce(lists: seq<seq<Obstacle>>, playerPos: Vec3, playerRadius: real)
    ensures TotalTouching(StruckAll(lists, playerPos, playerRadius), playerPos, playerRadius) == 0
  {
    if lists != [] {
      var n := |lists| - 1;
      RoadStrikeOnce(lists[..n], playerPos, playerRadius);
      assert StruckAll(lists, playerPos, playerRadius)[..n] == StruckAll(lists[..n], playerPos, playerRadius);
      StrikeOnce(lists[n], playerPos, playerRadius);
    }
  }

  /** The road's report counts obstacles not yet hit: never more than the road holds. */
  lemma {:induction false} TotalBounded(lists: seq<seq<Obstacle>>, playerPos: Vec3, playerRadius: real, total: nat)
    requires total == TotalObstacles(lists)
    ensures TotalTouching(lists, playerPos, playerRadius) <= total
  {
    if lists != [] {
      var n := |lists| - 1;
      TotalBounded(lists[..n], playerPos, playerRadius, TotalObstacles(lists[..n]));
    }
  }

  /** Every obstacle on the road has a working state machine. */
  predicate RoadOk(lists: seq<seq<Obstacle>>)
  {
    forall i, j :: 0 <= i < |lists| && 0 <= j < |lists[i]| ==> ObstacleOk(lists[i][j])
  }

  /** The animation pass of `update` over every tile. */
  function AnimatedAll(lists: seq<seq<Obstacle>>, dt: real): (r: seq<seq<Obstacle>>)
    requires dt >= 0.0 && RoadOk(lists)
    ensures |r| == |lists| && RoadOk(r)
  {
    seq(|lists|, i requires 0 <= i < |lists| => Animated(lists[i], dt))
  }

  /** Animating the road changes neither what the player would run into nor what has been hit. */
  lemma {:induction false} RoadAnimationKeepsCollisions(lists: seq<seq<Obstacle>>, dt: real, playerPos: Vec3, playerRadius: real)
    requires dt >= 0.0 && RoadOk(lists)
    ensures TotalTouching(AnimatedAll(lists, dt), playerPos, playerRadius) == TotalTouching(lists, playerPos, playerRadius)
  {
    if lists != [] {
      var n := |lists| - 1;
      RoadAnimationKeepsCollisions(lists[..n], dt, playerPos, playerRadius);
      assert AnimatedAll(lists, dt)[..n] == AnimatedAll(lists[..n], dt);
      AnimationKeepsCollisions(lists[n], dt, playerPos, playerRadius, |lists[n]|);
    }
  }

  /** How many obstacles the road holds. */
  function TotalObstacles(lists: seq<seq<Obstacle>>): nat
  {
    if lists == [] then 0 else TotalObstacles(lists[..|lists| - 1]) + |lists[|lists| - 1]|
  }

  // ---------------------------------------------------------------------------
  // The manager

  class TerrainManager {
    /** The tiles, nearest behind the player first; each tile is its own object. */
    var tiles: seq<TerrainTile>
    var numTiles: int
    const tileLength: real := 35.0
    var obstacleModel: Option<Animation>
    var levelConfigs: seq<TileConfig>
    var currentConfigIndex: int

    ghost predicate Valid()
      reads this, tiles
    {
      TilesOk() && numTiles >= 2 && (|tiles| == 0 || |tiles| == numTiles) && DealerOk() &&
      (obstacleModel.Some? ==> ValidAnimation(obstacleModel.value))
    }

    /** The index always points into the configurations, when there are any. */
    ghost predicate DealerOk()
      reads this
    {
      0 <= currentConfigIndex && (levelConfigs != [] ==> currentConfigIndex < |levelConfigs|)
    }

    /** Every tile is a different object, and each keeps its own invariant. */
    ghost predicate TilesOk()
      reads this, tiles
    {
      Distinct() && forall i :: 0 <= i < |tiles| ==> tiles[i].Valid()
    }

    /** No tile is in the list twice. */
    ghost predicate Distinct()
      reads this
    {
      forall i, j :: 0 <= i < j < |tiles| ==> tiles[i] != tiles[j]
    }

    /** Where the tiles are, in order. */
    ghost function Layout(): (r: seq<Vec3>)
      reads this, tiles
      ensures |r| == |tiles|
    {
      seq(|tiles|, i requires 0 <= i < |tiles| reads this, tiles => tiles[i].position)
    }

    /** What stands on each tile, in order. */
    ghost function ObstacleLists(): (r: seq<seq<Obstacle>>)
      reads this, tiles
      ensures |r| == |tiles|
    {
      seq(|tiles|, i requires 0 <= i < |tiles| reads this, tiles => tiles[i].obstacles)
    }

    /** The decorations of each tile, in order. */
    ghost function DecorationLists(): (r: seq<seq<Decoration>>)
      reads this, tiles
      ensures |r| == |tiles|
    {
      seq(|tiles|, i requires 0 <= i < |tiles| reads this, tiles => tiles[i].decorations)
    }

    /** A step that touched neither the manager nor any tile leaves the road as it was. */
    twostate lemma Untouched()
      requires unchanged(this) && forall i :: 0 <= i < |tiles| ==> unchanged(tiles[i])
      ensures ObstacleLists() == old(ObstacleLists()) && Layout() == old(Layout())
      ensures old(Valid()) ==> Valid()
    {
    }

    /** `TerrainManager()`: ten tiles of 35 to come, no models, no configurations. */
    constructor ()
      ensures Valid() && tiles == [] && numTiles == 10 && tileLength == 35.0
      ensures obstacleModel == None && levelConfigs == [] && currentConfigIndex == 0
    {
      tiles := [];
      numTiles := 10;
      obstacleModel := None;
      levelConfigs := [];
      currentConfigIndex := 0;
    }

    /**
     * `loadLevelConfig`: `None` stands for a file that cannot be opened, which
     * changes nothing; otherwise the configurations are replaced by those of
     * the file's lines and the next one handed out is the first.
     */
    method LoadLevelConfig(file: Option<seq<string>>)
      requires Valid()
      modifies this
      ensures Valid() && tiles == old(tiles) && obstacleModel == old(obstacleModel)
      ensures numTiles == old(numTiles)
      ensures file.None? ==> levelConfigs == old(levelConfigs) && currentConfigIndex == old(currentConfigIndex)
      ensures file.Some? ==> levelConfigs == ParseConfigs(file.value) && currentConfigIndex == 0
    {
      if file.None? {
        return;
      }
      var lines := file.value;
      levelConfigs := [];
      var i := 0;
      while i < |lines|
        invariant 0 <= i <= |lines| && levelConfigs == ParseConfigs(lines[..i])
        invariant tiles == old(tiles) && obstacleModel == old(obstacleModel) && currentConfigIndex == old(currentConfigIndex)
        invariant numTiles == old(numTiles)
      {
        var line := lines[i];
        assert lines[..i + 1][..i] == lines[..i];
        if !Skipped(line) {
          var (obsStr, rest) := ReadWord(line);
          var decCount := ReadInt(rest);
          var obstacleType := if obsStr == "LEFT" then 1 else if obsStr == "RIGHT" then 2 else 0;
          levelConfigs := levelConfigs + [TileConfig(obstacleType, decCount)];
        }
        i := i + 1;
      }
      assert lines[..i] == lines;
      currentConfigIndex := 0;
    }

    /**
     * `getNextConfig`: with configurations, the one at the index, and the index
     * moves on cyclically; without, a random one and the index stays.
     */
    method GetNextConfig(roll: ConfigRoll) returns (config: TileConfig)
      requires DealerOk()
      modifies `currentConfigIndex
      ensures DealerOk()
      ensures levelConfigs == [] ==> config == Fallback(roll) && currentConfigIndex == old(currentConfigIndex)
      ensures levelConfigs != [] ==>
        config == levelConfigs[old(currentConfigIndex)] &&
        currentConfigIndex == (old(currentConfigIndex) + 1) % |levelConfigs|
    {
      if levelConfigs == [] {
        var obstacleType := if roll.coin % 2 == 0 then roll.side % 2 + 1 else 0;
        var decorationCount := if roll.chance % 100 > 30 then roll.amount % 2 + 1 else 0;
        return TileConfig(obstacleType, decorationCount);
      }
      config := levelConfigs[currentConfigIndex];
      currentConfigIndex := (currentConfigIndex + 1) % |levelConfigs|;
    }

    /** Obstacles and decorations of one tile, from its configuration. */
    method Furnish(tile: TerrainTile, config: TileConfig, roll: TileRolls)
      requires tile.Valid() && (obstacleModel.Some? ==> ValidAnimation(obstacleModel.value))
      modifies tile
      ensures tile.Valid()
      ensures tile.obstacles == Placed(tile.position, tile.length, obstacleModel, config.obstacleType, roll.obstacle)
      ensures tile.decorations == Decorations(tile.position, tile.length, config.decorationCount, roll.decorations)
      ensures tile.position == old(tile.position) && tile.length == old(tile.length)
      ensures tile.slots == old(tile.slots) && tile.buffersCreated == old(tile.buffersCreated)
    {
      tile.GenerateObstacles(obstacleModel, config.obstacleType, roll.obstacle);
      tile.GenerateDecorations(config.decorationCount, roll.decorations);
    }

    /** One new tile of `init`: its length, its place in the row, and its grass. */
    method NewTile(i: int, start: Vec3, roll: TileRolls) returns (tile: TerrainTile)
      ensures fresh(tile) && tile.Valid() && tile.buffersCreated
      ensures tile.length == tileLength
      ensures tile.position == Vec3(start.x, start.y, start.z + (2 - i) as real * tileLength)
      ensures tile.obstacles == [] && tile.decorations == []
    {
      tile := new TerrainTile();
      tile.length := tileLength;
      tile.SetPosition(Vec3(start.x, start.y, start.z + (2 - i) as real * tileLength));
      var _ := tile.GenerateGrass(roll.kinds);
    }

    /** Tiles `0..i` have had their collision pass, the rest not; nothing else about them has changed. */
    ghost predicate StruckUpTo(i: int, playerPos: Vec3, playerRadius: real,
                               before: seq<seq<Obstacle>>, layout: seq<Vec3>, decorations: seq<seq<Decoration>>)
      reads this, tiles
    {
      Distinct() && 0 <= i <= |tiles| && |before| == |layout| == |decorations| == |tiles| &&
      (forall j :: 0 <= j < |tiles| ==>
        tiles[j].Valid() && tiles[j].position == layout[j] && tiles[j].decorations == decorations[j]) &&
      (forall j :: 0 <= j < i ==> tiles[j].obstacles == Struck(before[j], playerPos, playerRadius)) &&
      (forall j :: i <= j < |tiles| ==> tiles[j].obstacles == before[j])
    }

    /** One turn of the loop in `checkCollisions`: tile `i`'s pass and its report. */
    method StrikeTile(i: int, playerPos: Vec3, playerRadius: real,
                      ghost before: seq<seq<Obstacle>>, ghost layout: seq<Vec3>, ghost decorations: seq<seq<Decoration>>)
      returns (hits: int)
      requires StruckUpTo(i, playerPos, playerRadius, before, layout, decorations) && i < |tiles|
      modifies tiles[i]
      ensures StruckUpTo(i + 1, playerPos, playerRadius, before, layout, decorations)
      ensures hits == Touching(before[i], playerPos, playerRadius)
    {
      hits := tiles[i].CheckCollisions(playerPos, playerRadius);
    }

    /** Once every tile has had its pass, the road is the old one struck, and nothing else has moved. */
    lemma StruckLists(playerPos: Vec3, playerRadius: real,
                      before: seq<seq<Obstacle>>, layout: seq<Vec3>, decorations: seq<seq<Decoration>>)
      requires StruckUpTo(|tiles|, playerPos, playerRadius, before, layout, decorations)
      ensures ObstacleLists() == StruckAll(before, playerPos, playerRadius)
      ensures Layout() == layout && DecorationLists() == decorations
    {
    }

    /** `checkCollisions`: every tile's pass in turn; the sum of their reports. */
    method CheckCollisions(playerPos: Vec3, playerRadius: real) returns (totalHits: int)
      requires Valid()
      modifies tiles
      ensures Valid()
      ensures ObstacleLists() == StruckAll(old(ObstacleLists()), playerPos, playerRadius)
      ensures totalHits == TotalTouching(old(ObstacleLists()), playerPos, playerRadius)
      ensures Layout() == old(Layout()) && DecorationLists() == old(DecorationLists())
    {
      ghost var before := ObstacleLists();
      ghost var layout := Layout();
      ghost var decorations := DecorationLists();
      totalHits := 0;
      var i := 0;
      while i < |tiles|
        invariant StruckUpTo(i, playerPos, playerRadius, before, layout, decorations)
        invariant totalHits == TotalTouching(before[..i], playerPos, playerRadius)
      {
        var hits := StrikeTile(i, playerPos, playerRadius, before, layout, decorations);
        TotalTouchingStep(before, i, playerPos, playerRadius);
        totalHits := totalHits + hits;
        i := i + 1;
      }
      assert before[..i] == before;
      StruckLists(playerPos, playerRadius, before, layout, decorations);
    }

    /** Tiles `0..i` have been animated by `dt`, the rest not; nothing else about them has changed. */
    ghost predicate AnimatedUpTo(i: int, dt: real,
                                 before: seq<seq<Obstacle>>, layout: seq<Vec3>, decorations: seq<seq<Decoration>>)
      reads this, tiles
    {
      Distinct() && dt >= 0.0 && 0 <= i <= |tiles| && |before| == |layout| == |decorations| == |tiles| &&
      RoadOk(before) &&
      (forall j :: 0 <= j < |tiles| ==>
        tiles[j].Valid() && tiles[j].position == layout[j] && tiles[j].decorations == decorations[j]) &&
      (forall j :: 0 <= j < i ==> tiles[j].obstacles == Animated(before[j], dt)) &&
      (forall j :: i <= j < |tiles| ==> tiles[j].obstacles == before[j])
    }

    /** One turn of the first loop in `update`: tile `i`'s obstacles step on. */
    method AnimateTile(i: int, dt: real,
                       ghost before: seq<seq<Obstacle>>, ghost layout: seq<Vec3>, ghost decorations: seq<seq<Decoration>>)
      requires AnimatedUpTo(i, dt, before, layout, decorations) && i < |tiles|
      modifies tiles[i]
      ensures Distinct() && dt >= 0.0 && 0 <= i + 1 <= |tiles| && |before| == |layout| == |decorations| == |tiles|
      ensures RoadOk(before)
      ensures forall j :: 0 <= j < |tiles| ==> tiles[j].Valid()
      ensures forall j :: 0 <= j < |tiles| ==> tiles[j].position == layout[j] && tiles[j].decorations == decorations[j]
      ensures forall j :: 0 <= j < i + 1 ==> tiles[j].obstacles == Animated(before[j], dt)
      ensures forall j :: i + 1 <= j < |tiles| ==> tiles[j].obstacles == before[j]
    {
      tiles[i].Update(dt);
    }

    /** Once every tile has been animated, the road is the old one animated, and nothing else has moved. */
    lemma AnimatedLists(dt: real, before: seq<seq<Obstacle>>, layout: seq<Vec3>, decorations: seq<seq<Decoration>>)
      requires AnimatedUpTo(|tiles|, dt, before, layout, decorations)
      ensures ObstacleLists() == AnimatedAll(before, dt)
      ensures Layout() == layout && DecorationLists() == decorations
    {
    }

    /** The animation pass of `update`: every tile's obstacles step on by `dt`. */
    method UpdateTiles(dt: real)
      requires Valid() && dt >= 0.0
      modifies tiles
      ensures Valid() && RoadOk(old(ObstacleLists()))
      ensures ObstacleLists() == AnimatedAll(old(ObstacleLists()), dt)
      ensures Layout() == old(Layout()) && DecorationLists() == old(DecorationLists())
    {
      ghost var before := ObstacleLists();
      ghost var layout := Layout();
      ghost var decorations := DecorationLists();
      var i := 0;
      while i < |tiles|
        invariant AnimatedUpTo(i, dt, before, layout, decorations)
      {
        AnimateTile(i, dt, before, layout, decorations);
        i := i + 1;
      }
      AnimatedLists(dt, before, layout, decorations);
    }

    /**
     * The tile taken off the road, refitted: put at `pos`, given the next
     * configuration, new grass, obstacles and decorations.
     */
    method Refit(tile: TerrainTile, pos: Vec3, roll: TileRolls)
      requires tile.Valid() && DealerOk() && (obstacleModel.Some? ==> ValidAnimation(obstacleModel.value))
      modifies tile, `currentConfigIndex
      ensures tile.Valid() && DealerOk() && tile.position == pos && tile.length == old(tile.length)
      ensures var config := if levelConfigs == [] then Fallback(roll.config) else levelConfigs[old(currentConfigIndex)];
        tile.obstacles == Placed(pos, tile.length, obstacleModel, config.obstacleType, roll.obstacle) &&
        tile.decorations == Decorations(pos, tile.length, config.decorationCount, roll.decorations)
      ensures levelConfigs == [] ==> currentConfigIndex == old(currentConfigIndex)
      ensures levelConfigs != [] ==> currentConfigIndex == (old(currentConfigIndex) + 1) % |levelConfigs|
    {
      tile.SetPosition(pos);
      var config := GetNextConfig(roll.config);
      var _ := tile.GenerateGrass(roll.kinds);
      Furnish(tile, config, roll);
    }

    /**
     * The recycling step of `update`: the first tile is taken off, refitted
     * one tile length past the last, and put at the end.
     */
    method Recycle(roll: TileRolls)
      requires Valid() && tiles != []
      modifies this, tiles
      ensures Valid() && tiles == old(tiles[1..]) + [old(tiles[0])]
      ensures numTiles == old(numTiles) && obstacleModel == old(obstacleModel) && levelConfigs == old(levelConfigs)
      ensures Layout() == Recycled(old(Layout()), tileLength)
      ensures ObstacleLists()[..|tiles| - 1] == old(ObstacleLists()[1..])
      ensures DecorationLists()[..|tiles| - 1] == old(DecorationLists()[1..])
      ensures var config := if levelConfigs == [] then Fallback(roll.config) else levelConfigs[old(currentConfigIndex)];
        var last := tiles[|tiles| - 1];
        last.obstacles == Placed(last.position, last.length, obstacleModel, config.obstacleType, roll.obstacle) &&
        last.decorations == Decorations(last.position, last.length, config.decorationCount, roll.decorations)
      ensures levelConfigs == [] ==> currentConfigIndex == old(currentConfigIndex)
      ensures levelConfigs != [] ==> currentConfigIndex == (old(currentConfigIndex) + 1) % |levelConfigs|
    {
      ghost var layout := Layout();
      ghost var obstacles := ObstacleLists();
      ghost var decorations := DecorationLists();
      var recycled := tiles[0];
      tiles := tiles[1..];
      var back := tiles[|tiles| - 1].position;
      Refit(recycled, Vec3(back.x, back.y, back.z - tileLength), roll);
      tiles := tiles + [recycled];
      assert Layout() == Recycled(layout, tileLength);
      assert ObstacleLists()[..|tiles| - 1] == obstacles[1..];
      assert DecorationLists()[..|tiles| - 1] == decorations[1..];
    }

    /**
     * `update`: every tile's obstacles are animated; then, when the player is
     * more than 1.5 tile lengths past the first tile, that tile is recycled.
     */
    method Update(playerPos: Vec3, dt: real, roll: TileRolls)
      requires Valid() && dt >= 0.0
      modifies this, tiles
      ensures Valid() && RoadOk(old(ObstacleLists()))
      ensures numTiles == old(numTiles) && obstacleModel == old(obstacleModel) && levelConfigs == old(levelConfigs)
      ensures !Recycles(old(Layout()), playerPos.z, tileLength) ==>
        tiles == old(tiles) && Layout() == old(Layout()) && currentConfigIndex == old(currentConfigIndex) &&
        ObstacleLists() == AnimatedAll(old(ObstacleLists()), dt) && DecorationLists() == old(DecorationLists())
      ensures Recycles(old(Layout()), playerPos.z, tileLength) ==>
        tiles == old(tiles[1..]) + [old(tiles[0])] && Layout() == Recycled(old(Layout()), tileLength) &&
        ObstacleLists()[..|tiles| - 1] == AnimatedAll(old(ObstacleLists()), dt)[1..] &&
        DecorationLists()[..|tiles| - 1] == old(DecorationLists()[1..])
      ensures Recycles(old(Layout()), playerPos.z, tileLength) ==>
        var config := if levelConfigs == [] then Fallback(roll.config) else levelConfigs[old(currentConfigIndex)];
        var last := tiles[|tiles| - 1];
        last.obstacles == Placed(last.position, last.length, obstacleModel, config.obstacleType, roll.obstacle) &&
        last.decorations == Decorations(last.position, last.length, config.decorationCount, roll.decorations) &&
        currentConfigIndex == if levelConfigs == [] then old(currentConfigIndex)
                              else (old(currentConfigIndex) + 1) % |levelConfigs|
    {
      UpdateTiles(dt);
      if tiles == [] {
        return;
      }
      var backTileZ := tiles[0].position.z;
      if playerPos.z < backTileZ - tileLength * 1.5 {
        Recycle(roll);
      }
    }

    /** `getNextConfig` as the `i`-th call of a deal: the index ends where `i + 1` calls leave it. */
    method DealNext(i: nat, roll: ConfigRoll, ghost idx: nat) returns (config: TileConfig)
      requires DealerOk()
      requires levelConfigs != [] ==> idx < |levelConfigs| && currentConfigIndex == Deal(levelConfigs, idx, i).1
      modifies `currentConfigIndex
      ensures DealerOk()
      ensures levelConfigs != [] ==> currentConfigIndex == Deal(levelConfigs, idx, i + 1).1
      ensures levelConfigs != [] ==> Deal(levelConfigs, idx, i + 1).0 == Deal(levelConfigs, idx, i).0 + [config]
      ensures levelConfigs == [] ==> config == Fallback(roll)
    {
      config := GetNextConfig(roll);
      if levelConfigs != [] {
        DealStep(levelConfigs, idx, i);
      }
    }

    /** One turn of the loop in `init`: tile `i` is made, placed, furnished with the next configuration, and appended. */
    method AddTile(i: nat, start: Vec3, roll: TileRolls, ghost idx: nat)
      requires TilesOk() && DealerOk() && |tiles| == i
      requires obstacleModel.Some? ==> ValidAnimation(obstacleModel.value)
      requires levelConfigs != [] ==> idx < |levelConfigs| && currentConfigIndex == Deal(levelConfigs, idx, i).1
      modifies this
      ensures TilesOk() && DealerOk() && |tiles| == i + 1 && tiles[..i] == old(tiles) && fresh(tiles[i])
      ensures numTiles == old(numTiles) && obstacleModel == old(obstacleModel) && levelConfigs == old(levelConfigs)
      ensures levelConfigs != [] ==> currentConfigIndex == Deal(levelConfigs, idx, i + 1).1
      ensures tiles[i].length == tileLength
      ensures tiles[i].position == Vec3(start.x, start.y, start.z + (2 - i) as real * tileLength)
    {
      var tile := NewTile(i, start, roll);
      var config := DealNext(i, roll.config, idx);
      Furnish(tile, config, roll);
      tiles := tiles + [tile];
    }

    /** The loop of `init`: `numTiles` new tiles, from two tiles behind the start, each furnished with the next configuration dealt. */
    method LayRow(start: Vec3, rolls: nat -> TileRolls)
      requires DealerOk() && numTiles >= 2
      requires obstacleModel.Some? ==> ValidAnimation(obstacleModel.value)
      modifies this
      ensures Valid() && |tiles| == numTiles
      ensures numTiles == old(numTiles) && obstacleModel == old(obstacleModel) && levelConfigs == old(levelConfigs)
      ensures forall i :: 0 <= i < |tiles| ==> fresh(tiles[i]) && tiles[i].length == tileLength
      ensures Layout() == InitialLayout(start, numTiles, tileLength)
      ensures levelConfigs != [] ==> currentConfigIndex == Deal(levelConfigs, old(currentConfigIndex), numTiles).1
    {
      ghost var idx := currentConfigIndex;
      ghost var layout := InitialLayout(start, numTiles, tileLength);
      tiles := [];
      var i := 0;
      while i < numTiles
        invariant 0 <= i <= numTiles && |tiles| == i
        invariant TilesOk() && DealerOk()
        invariant numTiles == old(numTiles) && obstacleModel == old(obstacleModel) && levelConfigs == old(levelConfigs)
        invariant levelConfigs != [] ==> currentConfigIndex == Deal(levelConfigs, idx, i).1
        invariant forall j :: 0 <= j < i ==> fresh(tiles[j]) && tiles[j].length == tileLength && tiles[j].position == layout[j]
      {
        AddTile(i, start, rolls(i), idx);
        i := i + 1;
      }
      assert Layout() == layout;
    }

    /** `init`: the model is kept, the level file read, and the row of tiles laid. */
    method Init(model: Option<Animation>, start: Vec3, file: Option<seq<string>>, rolls: nat -> TileRolls)
      requires Valid() && (model.Some? ==> ValidAnimation(model.value))
      modifies this
      ensures Valid() && obstacleModel == model && |tiles| == numTiles
      ensures numTiles == old(numTiles)
      ensures forall i :: 0 <= i < |tiles| ==> fresh(tiles[i]) && tiles[i].length == tileLength
      ensures Layout() == InitialLayout(start, numTiles, tileLength)
      ensures file.Some? ==> levelConfigs == ParseConfigs(file.value)
      ensures file.None? ==> levelConfigs == old(levelConfigs)
      ensures levelConfigs != [] ==>
        currentConfigIndex == Deal(levelConfigs, if file.Some? then 0 else old(currentConfigIndex), numTiles).1
    {
      obstacleModel := model;
      LoadLevelConfig(file);
      LayRow(start, rolls);
    }
  }
}
