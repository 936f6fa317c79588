/**
 * The farmer's work cycle, as functions of a snapshot of the AI's fields
 * and of the world it acts on. Each stage handler of the farmer AI is a
 * function here; the `FarmerAI` class runs the same steps in place and is
 * proved to end in the state these functions compute.
 */
module FarmerSpec {
  import opened Optional
  import opened Geometry
  import opened FarmWorld

  datatype Stage = WORKING | MAKING_LAND | PLANTING | NEED_SEEDS | HARVESTING | SEARCHING_LAND | FULL_INVENTORY

  /** The farmer's hut: where it stands and how far the fields reach. */
  datatype FarmHut = FarmHut(location: BlockPos, farmRadius: int)

  /** A full load is fifteen harvests. */
  const HARVESTS_PER_LOAD: int := 15
  /** Below this many known crops, a seedless farmer goes to fetch seeds. */
  const ENOUGH_CROPS: int := 10
  const PLOW_DELAY: int := 20
  const PLANT_DELAY: int := 10
  const HARVEST_DELAY: int := 10
  const NEED_ITEM_DELAY: int := 50
  const NEED_SEEDS_DELAY: int := 200

  /** The AI's own fields (with its job's stage and list of needed items). */
  datatype Farmer = Farmer(
    stage: Stage,
    delay: int,
    harvestCounter: int,
    currentFarmLand: Option<BlockPos>,
    farmAbleLand: seq<BlockPos>,
    plowedLand: seq<BlockPos>,
    crops: seq<BlockPos>,
    crops2: seq<BlockPos>,
    itemsNeeded: seq<Item>,
    needItem: Option<ToolKind>)

  /** The world's blocks, the worker's inventory and the hut's chest, if it has one. */
  datatype Env = Env(blocks: map<BlockPos, BlockState>, inv: seq<Slot>, chest: Option<seq<Slot>>)

  datatype Sim = Sim(f: Farmer, e: Env)

  function Below(p: BlockPos): BlockPos { p.Add(0, -1, 0) }
  function Above(p: BlockPos): BlockPos { p.Add(0, 1, 0) }

  predicate NoDup<T(==)>(s: seq<T>)
  {
    forall i, j :: 0 <= i < j < |s| ==> s[i] != s[j]
  }

  /** What the AI keeps true between ticks. */
  ghost predicate Inv(f: Farmer)
  {
    && f.delay >= 0
    && 0 <= f.harvestCounter < HARVESTS_PER_LOAD
    && NoDup(f.itemsNeeded)
    && (|f.itemsNeeded| > 0 ==> f.needItem.Some?)
  }

  // ---------------------------------------------------------------- retry

  /** The first step of every tick: with no crops left, the immature ones are retried. */
  function Retry(f: Farmer): Farmer
  {
    if |f.crops| == 0 && |f.crops2| != 0 then f.(crops := f.crops + f.crops2, crops2 := [], stage := NEED_SEEDS) else f
  }

  lemma RetryMovesImmatureCrops(f: Farmer)
    ensures var g := Retry(f);
      && (|f.crops| == 0 && |f.crops2| != 0 ==> g == f.(crops := f.crops2, crops2 := [], stage := NEED_SEEDS))
      && (!(|f.crops| == 0 && |f.crops2| != 0) ==> g == f)
      && (|g.crops| == 0 ==> |g.crops2| == 0)
  {
    if |f.crops| == 0 {
      assert f.crops + f.crops2 == f.crops2;
    }
  }

  /** The stage to fall back to when a handler finds its own list empty. */
  function AfterEmpty(f: Farmer): Stage
  {
    if |f.plowedLand| == 0 && |f.crops| == 0 then SEARCHING_LAND else WORKING
  }

  // ---------------------------------------------------------- land scan

  /** Dirt or grass with air above: land to plow. */
  predicate Plowable(blocks: map<BlockPos, BlockState>, p: BlockPos)
  {
    var ground := BlockAt(blocks, Below(p)).block;
    (ground == Dirt || ground == Grass) && BlockAt(blocks, Above(p)).block == Air
  }

  /** Farmland with a crop on it. */
  predicate Cropped(blocks: map<BlockPos, BlockState>, p: BlockPos)
  {
    BlockAt(blocks, Below(p)).block == Farmland && IsCropBlock(BlockAt(blocks, p).block)
  }

  /** Farmland with nothing growing on it. */
  predicate Plowed(blocks: map<BlockPos, BlockState>, p: BlockPos)
  {
    BlockAt(blocks, Below(p)).block == Farmland && !IsCropBlock(BlockAt(blocks, p).block)
  }

  /** One cell of the land scan; `p` is the cell above the ground block examined. */
  function ScanCell(f: Farmer, blocks: map<BlockPos, BlockState>, p: BlockPos): Farmer
  {
    var ground := BlockAt(blocks, Below(p)).block;
    if ground == Dirt || ground == Grass then
      if BlockAt(blocks, Above(p)).block == Air && p !in f.farmAbleLand then f.(farmAbleLand := f.farmAbleLand + [p]) else f
    else if ground == Farmland then
      if IsCropBlock(BlockAt(blocks, p).block) then
        if p !in f.crops then f.(crops := f.crops + [p]) else f
      else if p !in f.plowedLand then f.(plowedLand := f.plowedLand + [p]) else f
    else f
  }

  /** The cells (x, y, z) for z from zlo up to, not including, zhi. */
  function Row(x: int, y: int, zlo: int, zhi: int): seq<BlockPos>
    decreases zhi - zlo
  {
    if zhi <= zlo then [] else Row(x, y, zlo, zhi - 1) + [BlockPos(x, y, zhi - 1)]
  }

  /** Rows xlo up to, not including, xhi, in the order the scan visits them. */
  function Grid(xlo: int, xhi: int, y: int, zlo: int, zhi: int): seq<BlockPos>
    decreases xhi - xlo
  {
    if xhi <= xlo then [] else Grid(xlo, xhi - 1, y, zlo, zhi) + Row(xhi - 1, y, zlo, zhi)
  }

  /** The square the scan covers: one cell beyond the farm radius on every side, at the hut's height. */
  function ScanArea(hut: FarmHut): seq<BlockPos>
  {
    var c := hut.location;
    var r := hut.farmRadius;
    Grid(c.x - r - 1, c.x + r + 2, c.y, c.z - r - 1, c.z + r + 2)
  }

  /** The scan over a run of cells, in order. */
  function ScanCells(f: Farmer, blocks: map<BlockPos, BlockState>, cells: seq<BlockPos>): Farmer
    decreases |cells|
  {
    if |cells| == 0 then f else ScanCell(ScanCells(f, blocks, cells[..|cells| - 1]), blocks, cells[|cells| - 1])
  }

  /** Scanning two runs of cells is scanning the first, then the second. */
  lemma {:induction false} ScanCellsAppend(f: Farmer, blocks: map<BlockPos, BlockState>, a: seq<BlockPos>, b: seq<BlockPos>)
    ensures ScanCells(f, blocks, a + b) == ScanCells(ScanCells(f, blocks, a), blocks, b)
    decreases |b|
  {
    if |b| == 0 {
      assert a + b == a;
    } else {
      assert (a + b)[..|a + b| - 1] == a + b[..|b| - 1];
      ScanCellsAppend(f, blocks, a, b[..|b| - 1]);
    }
  }

  /** searchFarmableLand. */
  function SearchLand(f: Farmer, blocks: map<BlockPos, BlockState>, hut: Option<FarmHut>): Farmer
  {
    if hut.None? then f else ScanCells(f, blocks, ScanArea(hut.value)).(stage := WORKING)
  }

  lemma {:induction false} RowMembership(x: int, y: int, zlo: int, zhi: int, p: BlockPos)
    ensures p in Row(x, y, zlo, zhi) <==> p.x == x && p.y == y && zlo <= p.z < zhi
    decreases zhi - zlo
  {
    if zhi > zlo {
      RowMembership(x, y, zlo, zhi - 1, p);
    }
  }

  lemma {:induction false} GridMembership(xlo: int, xhi: int, y: int, zlo: int, zhi: int, p: BlockPos)
    ensures p in Grid(xlo, xhi, y, zlo, zhi) <==> xlo <= p.x < xhi && p.y == y && zlo <= p.z < zhi
    decreases xhi - xlo
  {
    if xhi > xlo {
      GridMembership(xlo, xhi - 1, y, zlo, zhi, p);
      RowMembership(xhi - 1, y, zlo, zhi, p);
    }
  }

  /** The scan visits exactly the cells of the square [b - r - 1, b + r + 1] in x and z, at the hut's height. */
  lemma ScanAreaIsSquare(hut: FarmHut, p: BlockPos)
    ensures var c := hut.location; var r := hut.farmRadius;
      p in ScanArea(hut) <==>
        c.x - r - 1 <= p.x <= c.x + r + 1 && c.z - r - 1 <= p.z <= c.z + r + 1 && p.y == c.y
  {
    var c := hut.location;
    var r := hut.farmRadius;
    GridMembership(c.x - r - 1, c.x + r + 2, c.y, c.z - r - 1, c.z + r + 2, p);
  }

  /**
   * The scan only appends: each list keeps its old entries as a prefix, and
   * nothing but the three lists changes.
   */
  lemma {:induction false} ScanAppends(f: Farmer, blocks: map<BlockPos, BlockState>, cells: seq<BlockPos>)
    ensures var g := ScanCells(f, blocks, cells);
      && g == f.(farmAbleLand := g.farmAbleLand, plowedLand := g.plowedLand, crops := g.crops)
      && |f.farmAbleLand| <= |g.farmAbleLand| && g.farmAbleLand[..|f.farmAbleLand|] == f.farmAbleLand
      && |f.plowedLand| <= |g.plowedLand| && g.plowedLand[..|f.plowedLand|] == f.plowedLand
      && |f.crops| <= |g.crops| && g.crops[..|f.crops|] == f.crops
    decreases |cells|
  {
    if |cells| > 0 {
      var h := ScanCells(f, blocks, cells[..|cells| - 1]);
      ScanAppends(f, blocks, cells[..|cells| - 1]);
      var g := ScanCell(h, blocks, cells[|cells| - 1]);
      assert g.farmAbleLand[..|h.farmAbleLand|] == h.farmAbleLand;
      assert g.plowedLand[..|h.plowedLand|] == h.plowedLand;
      assert g.crops[..|h.crops|] == h.crops;
      assert g.farmAbleLand[..|f.farmAbleLand|] == h.farmAbleLand[..|f.farmAbleLand|];
      assert g.plowedLand[..|f.plowedLand|] == h.plowedLand[..|f.plowedLand|];
      assert g.crops[..|f.crops|] == h.crops[..|f.crops|];
    }
  }

  /**
   * Every cell the scan adds was visited and belongs where it was filed:
   * plowable land, farmland with a crop, or bare farmland.
   */
  lemma {:induction false} ScanClassifies(f: Farmer, blocks: map<BlockPos, BlockState>, cells: seq<BlockPos>)
    ensures var g := ScanCells(f, blocks, cells);
      && (forall p :: p in g.farmAbleLand && p !in f.farmAbleLand ==> p in cells && Plowable(blocks, p))
      && (forall p :: p in g.crops && p !in f.crops ==> p in cells && Cropped(blocks, p))
      && (forall p :: p in g.plowedLand && p !in f.plowedLand ==> p in cells && Plowed(blocks, p))
    decreases |cells|
  {
    if |cells| > 0 {
      ScanClassifies(f, blocks, cells[..|cells| - 1]);
      assert forall p :: p in cells[..|cells| - 1] ==> p in cells;
    }
  }

  /** Every visited cell of a kind ends up in that kind's list. */
  lemma {:induction false} ScanComplete(f: Farmer, blocks: map<BlockPos, BlockState>, cells: seq<BlockPos>)
    ensures var g := ScanCells(f, blocks, cells);
      && (forall p :: p in cells && Plowable(blocks, p) ==> p in g.farmAbleLand)
      && (forall p :: p in cells && Cropped(blocks, p) ==> p in g.crops)
      && (forall p :: p in cells && Plowed(blocks, p) ==> p in g.plowedLand)
    decreases |cells|
  {
    if |cells| > 0 {
      var init := cells[..|cells| - 1];
      ScanComplete(f, blocks, init);
      ScanAppends(ScanCells(f, blocks, init), blocks, [cells[|cells| - 1]]);
      assert ScanCells(ScanCells(f, blocks, init), blocks, [cells[|cells| - 1]]) == ScanCells(f, blocks, cells);
      forall p | p in cells
        ensures p in init || p == cells[|cells| - 1]
      {
        var k :| 0 <= k < |cells| && cells[k] == p;
        if k < |cells| - 1 {
          assert init[k] == p;
        }
      }
    }
  }

  /** A coordinate already in its list is never added again. */
  lemma {:induction false} ScanNoDup(f: Farmer, blocks: map<BlockPos, BlockState>, cells: seq<BlockPos>)
    requires NoDup(f.farmAbleLand) && NoDup(f.plowedLand) && NoDup(f.crops)
    ensures var g := ScanCells(f, blocks, cells);
      NoDup(g.farmAbleLand) && NoDup(g.plowedLand) && NoDup(g.crops)
    decreases |cells|
  {
    if |cells| > 0 {
      ScanNoDup(f, blocks, cells[..|cells| - 1]);
    }
  }

  /** After a scan the stage is WORKING. */
  lemma SearchEndsWorking(f: Farmer, blocks: map<BlockPos, BlockState>, hut: FarmHut)
    ensures SearchLand(f, blocks, Some(hut)).stage == WORKING
  {
  }

  // ----------------------------------------------------------- plowing

  /** make_land. */
  function MakeLand(s: Sim): Sim
  {
    var f := s.f;
    if |f.farmAbleLand| > 0 then
      var h := f.farmAbleLand[0];
      var plow := BlockAt(s.e.blocks, Below(h)).block != Farmland;
      var f1 := if plow then f.(delay := PLOW_DELAY, currentFarmLand := Some(Below(h))) else f;
      var blocks := if plow then s.e.blocks[Below(h) := BlockState(Farmland, 0)] else s.e.blocks;
      var f2 := if h !in f1.plowedLand then f1.(plowedLand := f1.plowedLand + [h], farmAbleLand := f1.farmAbleLand[1..]) else f1;
      Sim(f2, s.e.(blocks := blocks))
    else Sim(f.(stage := AfterEmpty(f)), s.e)
  }

  /**
   * Plowing turns the ground under the head of farmAbleLand into farmland
   * and moves the head to the end of plowedLand unless it is already there;
   * the two lists together keep their size, and nothing else is touched.
   */
  lemma MakeLandPlowsHead(s: Sim)
    requires |s.f.farmAbleLand| > 0
    ensures var h := s.f.farmAbleLand[0]; var r := MakeLand(s);
      && BlockAt(r.e.blocks, Below(h)).block == Farmland
      && (h !in s.f.plowedLand ==> r.f.plowedLand == s.f.plowedLand + [h] && r.f.farmAbleLand == s.f.farmAbleLand[1..])
      && |r.f.farmAbleLand| + |r.f.plowedLand| == |s.f.farmAbleLand| + |s.f.plowedLand|
      && r.f.crops == s.f.crops && r.f.crops2 == s.f.crops2 && r.f.stage == s.f.stage
      && r.e.inv == s.e.inv && r.e.chest == s.e.chest
      && (forall p :: p != Below(h) ==> BlockAt(r.e.blocks, p) == BlockAt(s.e.blocks, p))
  {
  }

  /**
   * A head that is already plowed and lies on farmland is never removed:
   * make_land then changes nothing, so the stage stays MAKING_LAND.
   */
  lemma MakeLandKeepsPlowedHead(s: Sim)
    requires |s.f.farmAbleLand| > 0 && s.f.farmAbleLand[0] in s.f.plowedLand
    requires BlockAt(s.e.blocks, Below(s.f.farmAbleLand[0])).block == Farmland
    ensures MakeLand(s) == s
  {
  }

  lemma MakeLandWhenDone(s: Sim)
    requires |s.f.farmAbleLand| == 0
    ensures MakeLand(s).f.stage == (if |s.f.plowedLand| == 0 && |s.f.crops| == 0 then SEARCHING_LAND else WORKING)
    ensures MakeLand(s).e == s.e
  {
  }

  // ---------------------------------------------------------- planting

  /** The head of plowedLand goes to crops, unless it is already there. */
  function MoveToCrops(f: Farmer, h: BlockPos): Farmer
    requires |f.plowedLand| > 0
  {
    if h !in f.crops then f.(crops := f.crops + [h], plowedLand := f.plowedLand[1..]) else f
  }

  /** Before sowing, the ground under the head of plowedLand is set to farmland again and the plowing delay set. */
  function PrepareGround(s: Sim): (r: Sim)
    requires |s.f.plowedLand| > 0
    ensures r.f.plowedLand == s.f.plowedLand
  {
    var h := s.f.plowedLand[0];
    Sim(s.f.(delay := PLOW_DELAY, currentFarmLand := Some(Below(h))), s.e.(blocks := s.e.blocks[Below(h) := BlockState(Farmland, 0)]))
  }

  /** Sowing the first seed of the inventory on the head of plowedLand. */
  function SowSeed(s: Sim): Sim
    requires |s.f.plowedLand| > 0
  {
    var h := s.f.plowedLand[0];
    var slot := FirstMatch(s.e.inv, SeedQuery);
    var seed := StackAt(s.e.inv, slot);
    if seed.None? then Sim(s.f.(stage := WORKING), s.e)
    else
      var crop := CropFor(seed.value.item);
      var blocks := if crop.Some? then s.e.blocks[h := BlockState(crop.value, 0)] else s.e.blocks;
      Sim(MoveToCrops(s.f.(delay := PLANT_DELAY), h), s.e.(blocks := blocks, inv := Decr(s.e.inv, slot, 1)))
  }

  /** Planting the head of plowedLand, an empty cell on farmland. */
  function Sow(s: Sim): Sim
    requires |s.f.plowedLand| > 0
  {
    SowSeed(PrepareGround(s))
  }

  /** planting. */
  function Planting(s: Sim): Sim
  {
    var f := s.f;
    if |f.plowedLand| > 0 then
      var h := f.plowedLand[0];
      if BlockAt(s.e.blocks, Below(h)).block == Farmland then
        if BlockAt(s.e.blocks, h).block == Air then Sow(s)
        else Sim(MoveToCrops(f, h), s.e)
      else
        var f1 := if h !in f.farmAbleLand then f.(farmAbleLand := f.farmAbleLand + [h], plowedLand := f.plowedLand[1..]) else f;
        Sim(f1, s.e)
    else Sim(f.(stage := AfterEmpty(f)), s.e)
  }

  /**
   * Planting an empty farmland cell with a seed in the inventory: the crop
   * for that seed is set, exactly one unit leaves the first seed slot, and
   * the cell moves to crops unless it is already there.
   */
  lemma PlantingPlantsOneSeed(s: Sim)
    requires |s.f.plowedLand| > 0
    requires BlockAt(s.e.blocks, Below(s.f.plowedLand[0])).block == Farmland
    requires BlockAt(s.e.blocks, s.f.plowedLand[0]).block == Air
    requires FirstMatch(s.e.inv, SeedQuery) >= 0
    ensures var h := s.f.plowedLand[0]; var k := FirstMatch(s.e.inv, SeedQuery);
      var seed := s.e.inv[k].value; var r := Planting(s);
      && IsSeed(seed.item)
      && (CropFor(seed.item).Some? ==> BlockAt(r.e.blocks, h) == BlockState(CropFor(seed.item).value, 0))
      && BlockAt(r.e.blocks, Below(h)).block == Farmland
      && r.e.inv == Decr(s.e.inv, k, 1)
      && (seed.size > 1 ==> r.e.inv[k] == Some(seed.(size := seed.size - 1)))
      && (seed.size <= 1 ==> r.e.inv[k].None?)
      && (h !in s.f.crops ==> r.f.crops == s.f.crops + [h] && r.f.plowedLand == s.f.plowedLand[1..])
      && r.f.delay == PLANT_DELAY && r.f.stage == s.f.stage
  {
  }

  /** A plowed cell whose ground is no longer farmland goes back to farmAbleLand. */
  lemma PlantingReturnsUnplowed(s: Sim)
    requires |s.f.plowedLand| > 0
    requires BlockAt(s.e.blocks, Below(s.f.plowedLand[0])).block != Farmland
    requires s.f.plowedLand[0] !in s.f.farmAbleLand
    ensures var r := Planting(s);
      && r.f.farmAbleLand == s.f.farmAbleLand + [s.f.plowedLand[0]]
      && r.f.plowedLand == s.f.plowedLand[1..]
      && r.e == s.e
  {
  }

  /** Without a seed, the ground is reset, the delay set, and the farmer goes back to WORKING with the cell still queued. */
  lemma PlantingWithoutSeed(s: Sim)
    requires |s.f.plowedLand| > 0
    requires BlockAt(s.e.blocks, Below(s.f.plowedLand[0])).block == Farmland
    requires BlockAt(s.e.blocks, s.f.plowedLand[0]).block == Air
    requires FirstMatch(s.e.inv, SeedQuery) == -1
    ensures var r := Planting(s);
      && r.f.stage == WORKING && r.f.plowedLand == s.f.plowedLand && r.f.crops == s.f.crops
      && r.e.inv == s.e.inv
  {
  }

  // -------------------------------------------------------- harvesting

  /** The harvest counter rule at the end of harvesting. */
  function FullLoad(f: Farmer): Farmer
  {
    if f.harvestCounter == HARVESTS_PER_LOAD then f.(stage := FULL_INVENTORY, harvestCounter := 0) else f
  }

  /** Harvesting a ripe head of crops: store the drops, clear the cell, count the harvest. */
  function Reap(s: Sim, drops: seq<ItemStack>): Sim
    requires |s.f.crops| > 0
  {
    var h := s.f.crops[0];
    var f1 := s.f.(harvestCounter := s.f.harvestCounter + 1);
    var f2 := if h !in f1.plowedLand then f1.(plowedLand := f1.plowedLand + [h], crops := f1.crops[1..]) else f1;
    Sim(f2, s.e.(blocks := s.e.blocks[h := BlockState(Air, 0)], inv := StoreAll(s.e.inv, drops)))
  }

  /** harvesting before the harvest-counter rule. */
  function HarvestStep(s: Sim, arrived: bool, drops: seq<ItemStack>): Sim
  {
    var f := s.f;
    if |f.crops| > 0 then
      var f0 := f.(delay := HARVEST_DELAY);
      var h := f.crops[0];
      if !arrived then Sim(f0, s.e)
      else if IsMature(BlockAt(s.e.blocks, h)) then Reap(Sim(f0, s.e), drops)
      else Sim(f0.(crops2 := f0.crops2 + [h], crops := f0.crops[1..]), s.e)
    else Sim(f.(stage := AfterEmpty(f)), s.e)
  }

  /** harvesting; `arrived` is whether the worker stands at the head cell, `drops` what the block drops. */
  function Harvesting(s: Sim, arrived: bool, drops: seq<ItemStack>): Sim
  {
    var s1 := HarvestStep(s, arrived, drops);
    Sim(FullLoad(s1.f), s1.e)
  }

  /**
   * At the head cell, a ripe crop is cleared to air, counted, and its cell
   * moves to plowedLand unless already there; an unripe one moves to crops2.
   */
  lemma HarvestingAtHead(s: Sim, drops: seq<ItemStack>)
    requires |s.f.crops| > 0 && s.f.harvestCounter + 1 < HARVESTS_PER_LOAD
    ensures var h := s.f.crops[0]; var r := Harvesting(s, true, drops);
      && r.f.delay == HARVEST_DELAY
      && (IsMature(BlockAt(s.e.blocks, h)) ==>
            && BlockAt(r.e.blocks, h).block == Air
            && r.f.harvestCounter == s.f.harvestCounter + 1
            && r.e.inv == StoreAll(s.e.inv, drops)
            && (h !in s.f.plowedLand ==> r.f.plowedLand == s.f.plowedLand + [h] && r.f.crops == s.f.crops[1..]))
      && (!IsMature(BlockAt(s.e.blocks, h)) ==>
            r.f.crops2 == s.f.crops2 + [h] && r.f.crops == s.f.crops[1..] && r.e == s.e
            && r.f.harvestCounter == s.f.harvestCounter)
  {
  }

  /**
   * The counter stays below fifteen: the harvest that reaches fifteen sends
   * the farmer to empty its inventory and resets the counter.
   */
  lemma HarvestCounterBounded(s: Sim, arrived: bool, drops: seq<ItemStack>)
    requires 0 <= s.f.harvestCounter < HARVESTS_PER_LOAD
    ensures var r := Harvesting(s, arrived, drops);
      && 0 <= r.f.harvestCounter < HARVESTS_PER_LOAD
      && (s.f.harvestCounter == HARVESTS_PER_LOAD - 1 && arrived && |s.f.crops| > 0 && IsMature(BlockAt(s.e.blocks, s.f.crops[0]))
          ==> r.f.stage == FULL_INVENTORY && r.f.harvestCounter == 0)
  {
  }

  // ----------------------------------------------------- dumping loads

  /** One slot of dumpInventory: a non-tool stack goes to the chest, if there is one. */
  function DumpSlot(inv: seq<Slot>, chest: Option<seq<Slot>>, i: int): (r: (seq<Slot>, Option<seq<Slot>>))
    requires 0 <= i < |inv|
    ensures |r.0| == |inv| && r.1.Some? == chest.Some?
  {
    if inv[i].Some? && !IsTool(inv[i]) && chest.Some? then
      var t := Transfer(inv, i, chest.value);
      (t.0, Some(t.1))
    else (inv, chest)
  }

  /** dumpInventory's loop from slot `i` on. */
  function DumpFrom(inv: seq<Slot>, chest: Option<seq<Slot>>, i: nat): (r: (seq<Slot>, Option<seq<Slot>>))
    ensures |r.0| == |inv| && r.1.Some? == chest.Some?
    decreases |inv| - i
  {
    if i >= |inv| then (inv, chest)
    else
      var d := DumpSlot(inv, chest, i);
      DumpFrom(d.0, d.1, i + 1)
  }

  /** dumpInventory: at the hut, every non-tool stack is offered to the chest, then back to WORKING. */
  function Dump(s: Sim, arrived: bool): Sim
  {
    if !arrived then s
    else
      var d := DumpFrom(s.e.inv, s.e.chest, 0);
      Sim(s.f.(stage := WORKING), s.e.(inv := d.0, chest := d.1))
  }

  ghost predicate PositiveStacks(slots: seq<Slot>)
  {
    forall j :: 0 <= j < |slots| && slots[j].Some? ==> slots[j].value.size > 0
  }

  /** Tools stay in their slots, and with no chest nothing moves. */
  lemma {:induction false} DumpKeepsTools(inv: seq<Slot>, chest: Option<seq<Slot>>, i: nat)
    ensures var r := DumpFrom(inv, chest, i);
      && (forall j :: 0 <= j < |inv| && IsTool(inv[j]) ==> r.0[j] == inv[j])
      && (chest.None? ==> r.0 == inv)
    decreases |inv| - i
  {
    if i < |inv| {
      var d := DumpSlot(inv, chest, i);
      DumpKeepsTools(d.0, d.1, i + 1);
    }
  }

  /** Dumping moves stacks and never loses or creates one. */
  lemma {:induction false} DumpConserves(inv: seq<Slot>, chest: seq<Slot>, i: nat)
    requires PositiveStacks(inv)
    ensures var r := DumpFrom(inv, Some(chest), i); Contents(r.0) + Contents(r.1.value) == Contents(inv) + Contents(chest)
    decreases |inv| - i
  {
    if i < |inv| {
      var d := DumpSlot(inv, Some(chest), i);
      if inv[i].Some? && !IsTool(inv[i]) {
        TransferConserves(inv, i, chest);
        DecrKeepsPositive(inv, i, chest);
      }
      DumpConserves(d.0, d.1.value, i + 1);
    }
  }

  lemma DecrKeepsPositive(inv: seq<Slot>, i: int, chest: seq<Slot>)
    requires PositiveStacks(inv) && 0 <= i < |inv| && inv[i].Some?
    ensures PositiveStacks(Transfer(inv, i, chest).0)
  {
  }

  // ------------------------------------------------------ tools, seeds

  function AddIfAbsent(items: seq<Item>, item: Item): (r: seq<Item>)
    ensures item in r
    ensures NoDup(items) ==> NoDup(r)
    ensures forall x :: x in items ==> x in r
  {
    if item in items then items else items + [item]
  }

  /** The list without its first occurrence of `item`. */
  function RemoveItem(items: seq<Item>, item: Item): (r: seq<Item>)
    ensures |r| <= |items|
    ensures item in items ==> |r| == |items| - 1
    ensures forall x :: x in r ==> x in items
    ensures NoDup(items) ==> NoDup(r) && item !in r
    decreases |items|
  {
    if |items| == 0 then []
    else if items[0] == item then items[1..]
    else
      var rest := RemoveItem(items[1..], item);
      assert NoDup(items) ==> items[0] !in items[1..] && NoDup(items[1..]);
      assert NoDup(items) ==> items[0] !in rest;
      [items[0]] + rest
  }

  /** Whether a tool is held or in the inventory. */
  predicate HasTool(inv: seq<Slot>, held: Slot, kind: ToolKind)
  {
    (held.Some? && ToolOf(held.value.item) == Some(kind)) || FirstMatch(inv, ToolQuery(kind)) > -1
  }

  /** hasAllTheTools: a missing shovel is asked for first, then a missing hoe. */
  function HasAllTheTools(f: Farmer, inv: seq<Slot>, held: Slot): (r: (bool, Farmer))
    ensures r.0 <==> HasTool(inv, held, ShovelTool) && HasTool(inv, held, HoeTool)
    ensures !HasTool(inv, held, ShovelTool) ==>
      r.1 == f.(itemsNeeded := AddIfAbsent(f.itemsNeeded, Shovel(Iron)), needItem := Some(ShovelTool))
    ensures HasTool(inv, held, ShovelTool) && !HasTool(inv, held, HoeTool) ==>
      r.1 == f.(itemsNeeded := AddIfAbsent(f.itemsNeeded, Hoe(Iron)), needItem := Some(HoeTool))
    ensures r.0 ==> r.1 == f
    ensures Inv(f) ==> Inv(r.1)
  {
    var spade := HasTool(inv, held, ShovelTool);
    var hoe := HasTool(inv, held, HoeTool);
    var f' :=
      if !spade then f.(itemsNeeded := AddIfAbsent(f.itemsNeeded, Shovel(Iron)), needItem := Some(ShovelTool))
      else if !hoe then f.(itemsNeeded := AddIfAbsent(f.itemsNeeded, Hoe(Iron)), needItem := Some(HoeTool))
      else f;
    (hoe && spade, f')
  }

  /** hasSeed: a seed in the worker's inventory; without one, the stage becomes NEED_SEEDS. */
  function HasSeed(f: Farmer, inv: seq<Slot>): (r: (bool, Farmer))
    ensures r.0 <==> exists j :: 0 <= j < |inv| && Matches(SeedQuery, inv[j])
    ensures r.1 == if r.0 then f else f.(stage := NEED_SEEDS)
  {
    var found := FirstMatch(inv, SeedQuery) >= 0;
    (found, if found then f else f.(stage := NEED_SEEDS))
  }

  /** hasSeedInHut: the first seed stack of the chest moves to the worker. */
  function HasSeedInHut(e: Env): (r: (bool, Env))
    ensures r.0 <==> e.chest.Some? && FirstMatch(e.chest.value, SeedQuery) >= 0
    ensures !r.0 ==> r.1 == e
    ensures r.1.blocks == e.blocks && r.1.chest.Some? == e.chest.Some?
  {
    if e.chest.None? then (false, e)
    else
      var k := FirstMatch(e.chest.value, SeedQuery);
      if k == -1 then (false, e)
      else
        var t := Transfer(e.chest.value, k, e.inv);
        (true, e.(chest := Some(t.0), inv := t.1))
  }

  /** isInHut(Item): the first chest stack that is the item, or a tool of the kind asked for, moves to the worker. */
  function IsInHut(s: Sim, item: Item): (r: (bool, Env))
    ensures r.0 <==> s.e.chest.Some? && FirstMatch(s.e.chest.value, NeedQuery(item, s.f.needItem)) >= 0
    ensures !r.0 ==> r.1 == s.e
    ensures r.1.blocks == s.e.blocks && r.1.chest.Some? == s.e.chest.Some?
  {
    if s.e.chest.None? then (false, s.e)
    else
      var k := FirstMatch(s.e.chest.value, NeedQuery(item, s.f.needItem));
      if k == -1 then (false, s.e)
      else
        var t := Transfer(s.e.chest.value, k, s.e.inv);
        (true, s.e.(chest := Some(t.0), inv := t.1))
  }

  /**
   * Fetching from the hut neither loses nor creates a stack: what leaves the
   * chest is in the worker's inventory. First for seeds (hasSeedInHut) ...
   */
  lemma SeedFetchConserves(e: Env)
    requires e.chest.Some? && PositiveStacks(e.chest.value)
    ensures var r := HasSeedInHut(e).1;
      Contents(r.inv) + Contents(r.chest.value) == Contents(e.inv) + Contents(e.chest.value)
  {
    var c := e.chest.value;
    var k := FirstMatch(c, SeedQuery);
    if k >= 0 {
      assert c[k].value.size > 0;
      var t := Transfer(c, k, e.inv);
      assert HasSeedInHut(e).1 == e.(chest := Some(t.0), inv := t.1);
      TransferConserves(c, k, e.inv);
      BagCommute(Contents(t.0), Contents(t.1), Contents(c), Contents(e.inv));
    }
  }

  /** ... then for a needed item (isInHut). */
  lemma ItemFetchConserves(s: Sim, item: Item)
    requires s.e.chest.Some? && PositiveStacks(s.e.chest.value)
    ensures var r := IsInHut(s, item).1;
      Contents(r.inv) + Contents(r.chest.value) == Contents(s.e.inv) + Contents(s.e.chest.value)
  {
    var c := s.e.chest.value;
    var k := FirstMatch(c, NeedQuery(item, s.f.needItem));
    if k >= 0 {
      assert c[k].value.size > 0;
      var t := Transfer(c, k, s.e.inv);
      assert IsInHut(s, item).1 == s.e.(chest := Some(t.0), inv := t.1);
      TransferConserves(c, k, s.e.inv);
      BagCommute(Contents(t.0), Contents(t.1), Contents(c), Contents(s.e.inv));
    }
  }

  lemma BagCommute(a: multiset<ItemStack>, b: multiset<ItemStack>, c: multiset<ItemStack>, d: multiset<ItemStack>)
    requires a + b == c + d
    ensures b + a == d + c
  {
    assert b + a == a + b;
    assert d + c == c + d;
  }

  /**
   * The items-needed loop over a copy of the list: the first entry found in
   * the chest, or satisfied by having all the tools, or already in the
   * inventory, is crossed off and the tick ends; if none is, the farmer waits.
   */
  function Resolve(s: Sim, held: Slot, l: seq<Item>): Sim
    decreases |l|
  {
    if |l| == 0 then Sim(s.f.(delay := NEED_ITEM_DELAY), s.e)
    else
      var e := l[0];
      var inHut := IsInHut(s, e);
      if inHut.0 then Sim(s.f.(itemsNeeded := RemoveItem(s.f.itemsNeeded, e)), inHut.1)
      else
        var tools := HasAllTheTools(s.f, s.e.inv, held);
        if tools.0 || FirstMatch(s.e.inv, ItemQuery(e)) != -1 then
          Sim(tools.1.(itemsNeeded := RemoveItem(tools.1.itemsNeeded, e)), s.e)
        else Resolve(Sim(tools.1, s.e), held, l[1..])
  }

  /** Either one needed item is crossed off, or the farmer waits 50 ticks; the blocks are not touched. */
  lemma {:induction false} ResolveOutcome(s: Sim, held: Slot, l: seq<Item>)
    requires Inv(s.f)
    ensures var r := Resolve(s, held, l);
      && Inv(r.f)
      && r.e.blocks == s.e.blocks
      && (r.f.delay == NEED_ITEM_DELAY || (r.f.delay == s.f.delay && exists x :: x in l && x !in r.f.itemsNeeded))
      && r.f.stage == s.f.stage
    decreases |l|
  {
    if |l| > 0 {
      var e := l[0];
      var inHut := IsInHut(s, e);
      if !inHut.0 {
        var tools := HasAllTheTools(s.f, s.e.inv, held);
        if !(tools.0 || FirstMatch(s.e.inv, ItemQuery(e)) != -1) {
          ResolveOutcome(Sim(tools.1, s.e), held, l[1..]);
          var r := Resolve(s, held, l);
          if r.f.delay != NEED_ITEM_DELAY {
            var x :| x in l[1..] && x !in r.f.itemsNeeded;
            assert x in l;
          }
        } else {
          assert e in l;
        }
      } else {
        assert e in l;
      }
    }
  }

  // ------------------------------------------------------------ routing

  /** The WORKING case, with hasSeed called where the source calls it. */
  function Working(f: Farmer, inv: seq<Slot>): Farmer
  {
    if |f.farmAbleLand| == 0 && |f.plowedLand| == 0 && |f.crops| == 0 then f.(stage := SEARCHING_LAND)
    else
      var h1 := HasSeed(f, inv);
      if !h1.0 && |f.crops| + |f.crops2| < ENOUGH_CROPS then h1.1.(stage := NEED_SEEDS)
      else if |f.farmAbleLand| > 0 then h1.1.(stage := MAKING_LAND)
      else
        var h2 := HasSeed(h1.1, inv);
        if h2.0 && |f.plowedLand| > 0 then h2.1.(stage := PLANTING)
        else if |f.crops| > 0 then h2.1.(stage := HARVESTING)
        else h2.1
  }

  /** The router's priority list. */
  function Route(f: Farmer, hasSeed: bool): Stage
  {
    if |f.farmAbleLand| == 0 && |f.plowedLand| == 0 && |f.crops| == 0 then SEARCHING_LAND
    else if !hasSeed && |f.crops| + |f.crops2| < ENOUGH_CROPS then NEED_SEEDS
    else if |f.farmAbleLand| > 0 then MAKING_LAND
    else if hasSeed && |f.plowedLand| > 0 then PLANTING
    else HARVESTING
  }

  /**
   * After the retry step (no crops ==> no immature crops), the WORKING case
   * changes only the stage, to the first stage of the priority list whose
   * condition holds; in particular it always leaves WORKING.
   */
  lemma WorkingFollowsRoute(f: Farmer, inv: seq<Slot>)
    requires f.stage == WORKING
    requires |f.crops| == 0 ==> |f.crops2| == 0
    ensures Working(f, inv) == f.(stage := Route(f, FirstMatch(inv, SeedQuery) >= 0))
    ensures Working(f, inv).stage != WORKING
  {
  }

  /**
   * Without the retry step the priority list can fall through: no seed,
   * only plowed land and ten immature crops leave none of its conditions
   * true, and it is hasSeed's own side effect that sets NEED_SEEDS.
   */
  lemma WorkingFallsThroughWithoutRetry(f: Farmer, inv: seq<Slot>)
    requires f.stage == WORKING && FirstMatch(inv, SeedQuery) == -1
    requires |f.farmAbleLand| == 0 && |f.plowedLand| > 0 && |f.crops| == 0 && |f.crops2| >= ENOUGH_CROPS
    ensures Working(f, inv).stage == NEED_SEEDS
  {
  }

  /** NEED_SEEDS: at the hut, wait 200 ticks and plant once a seed is in the inventory or fetched from the chest. */
  function NeedSeeds(s: Sim, arrived: bool): Sim
  {
    if !arrived then s
    else
      var f1 := s.f.(delay := NEED_SEEDS_DELAY);
      var h := HasSeed(f1, s.e.inv);
      if h.0 then Sim(h.1.(stage := PLANTING), s.e)
      else
        var hut := HasSeedInHut(s.e);
        if hut.0 then Sim(h.1.(stage := PLANTING), hut.1) else Sim(h.1, s.e)
  }

  /** The stage dispatch of updateTask. */
  function Dispatch(s: Sim, hut: Option<FarmHut>, arrived: bool, drops: seq<ItemStack>): Sim
  {
    match s.f.stage
      case FULL_INVENTORY => Dump(s, arrived)
      case SEARCHING_LAND => Sim(SearchLand(s.f, s.e.blocks, hut), s.e)
      case MAKING_LAND => MakeLand(s)
      case NEED_SEEDS => NeedSeeds(s, arrived)
      case WORKING => Sim(Working(s.f, s.e.inv), s.e)
      case PLANTING => Planting(s)
      case HARVESTING => Harvesting(s, arrived, drops)
  }

  /**
   * updateTask: one tick. `arrived` is the navigation oracle's answer for
   * the one walk the tick asks for, `drops` the drops of a harvested crop.
   */
  function UpdateTask(s: Sim, held: Slot, hut: Option<FarmHut>, arrived: bool, drops: seq<ItemStack>): Sim
  {
    if hut.None? then s
    else
      var f0 := Retry(s.f);
      if f0.delay > 0 then Sim(f0.(delay := f0.delay - 1), s.e)
      else if |f0.itemsNeeded| > 0 then (if arrived then Resolve(Sim(f0, s.e), held, f0.itemsNeeded) else Sim(f0, s.e))
      else
        var tools := HasAllTheTools(f0, s.e.inv, held);
        if tools.0 then Dispatch(Sim(f0, s.e), hut, arrived, drops) else Sim(tools.1, s.e)
  }

  /** Without a work building nothing happens. */
  lemma NoHutNoTick(s: Sim, held: Slot, arrived: bool, drops: seq<ItemStack>)
    ensures UpdateTask(s, held, None, arrived, drops) == s
  {
  }

  /** While the delay runs, a tick does the retry step and counts the delay down, nothing more. */
  lemma DelayOnlyCountsDown(s: Sim, held: Slot, hut: FarmHut, arrived: bool, drops: seq<ItemStack>)
    requires Retry(s.f).delay > 0
    ensures var f0 := Retry(s.f); UpdateTask(s, held, Some(hut), arrived, drops) == Sim(f0.(delay := f0.delay - 1), s.e)
  {
  }

  /**
   * With no delay, nothing needed and both tools at hand, a tick in
   * SEARCHING_LAND always ends in WORKING, and a tick in WORKING with every
   * cache empty goes back to SEARCHING_LAND: the two alternate, never stall.
   */
  lemma SearchAndRouteAlternate(s: Sim, held: Slot, hut: FarmHut, arrived: bool, drops: seq<ItemStack>)
    requires s.f.delay == 0 && |s.f.itemsNeeded| == 0
    requires |s.f.crops| == 0 ==> |s.f.crops2| == 0
    requires HasTool(s.e.inv, held, ShovelTool) && HasTool(s.e.inv, held, HoeTool)
    ensures s.f.stage == SEARCHING_LAND ==> UpdateTask(s, held, Some(hut), arrived, drops).f.stage == WORKING
    ensures s.f.stage == WORKING && |s.f.farmAbleLand| == 0 && |s.f.plowedLand| == 0 && |s.f.crops| == 0 ==>
      UpdateTask(s, held, Some(hut), arrived, drops) == Sim(s.f.(stage := SEARCHING_LAND), s.e)
  {
  }

  /** Missing a tool, the tick only asks for it: the stage handlers do not run. */
  lemma MissingToolBlocksWork(s: Sim, held: Slot, hut: FarmHut, arrived: bool, drops: seq<ItemStack>)
    requires Retry(s.f).delay == 0 && |Retry(s.f).itemsNeeded| == 0
    requires !HasTool(s.e.inv, held, ShovelTool)
    ensures var r := UpdateTask(s, held, Some(hut), arrived, drops);
      && r.e == s.e
      && r.f == Retry(s.f).(itemsNeeded := [Shovel(Iron)], needItem := Some(ShovelTool))
  {
  }

  /** Each stage handler keeps the invariant. */
  lemma PlantingKeepsInv(s: Sim)
    requires Inv(s.f)
    ensures Inv(Planting(s).f)
  {
  }

  lemma MakeLandKeepsInv(s: Sim)
    requires Inv(s.f)
    ensures Inv(MakeLand(s).f)
  {
  }

  lemma NeedSeedsKeepsInv(s: Sim, arrived: bool)
    requires Inv(s.f)
    ensures Inv(NeedSeeds(s, arrived).f)
  {
  }

  lemma SearchLandKeepsInv(f: Farmer, blocks: map<BlockPos, BlockState>, hut: Option<FarmHut>)
    requires Inv(f)
    ensures Inv(SearchLand(f, blocks, hut))
  {
    if hut.Some? {
      ScanAppends(f, blocks, ScanArea(hut.value));
    }
  }

  lemma DispatchKeepsInv(s: Sim, hut: Option<FarmHut>, arrived: bool, drops: seq<ItemStack>)
    requires Inv(s.f)
    ensures Inv(Dispatch(s, hut, arrived, drops).f)
  {
    match s.f.stage
      case SEARCHING_LAND => SearchLandKeepsInv(s.f, s.e.blocks, hut);
      case HARVESTING => HarvestCounterBounded(s, arrived, drops);
      case FULL_INVENTORY =>
      case MAKING_LAND => MakeLandKeepsInv(s);
      case NEED_SEEDS => NeedSeedsKeepsInv(s, arrived);
      case WORKING =>
      case PLANTING => PlantingKeepsInv(s);
  }

  /** A tick keeps the invariant: the delay is never negative, the harvest counter stays in [0, 15), needed items are distinct and come with the tool kind asked for. */
  lemma UpdateTaskKeepsInv(s: Sim, held: Slot, hut: Option<FarmHut>, arrived: bool, drops: seq<ItemStack>)
    requires Inv(s.f)
    ensures Inv(UpdateTask(s, held, hut, arrived, drops).f)
  {
    if hut.Some? {
      var f0 := Retry(s.f);
      assert Inv(f0);
      if f0.delay == 0 && |f0.itemsNeeded| > 0 && arrived {
        ResolveOutcome(Sim(f0, s.e), held, f0.itemsNeeded);
      } else if f0.delay == 0 && |f0.itemsNeeded| == 0 {
        DispatchKeepsInv(Sim(f0, s.e), hut, arrived, drops);
      }
    }
  }
}
