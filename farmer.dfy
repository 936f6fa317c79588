/**
 * The farmer's AI object. Its fields are the AI's caches and counters
 * (with the job's stage and needed items); each method runs one handler in
 * place and ends in the state the matching function of `FarmerSpec`
 * computes from the state it started in.
 */
module FarmerAI {
  import opened Optional
  import opened Geometry
  import opened FarmWorld
  import opened FarmerSpec

  class EntityAIWorkFarmer {
    const world: World
    const inventory: Inventory
    /** The hut's chest; null when the hut has no tile entity. */
    const chest: Inventory?
    /** The worker's work building; None when it has none. */
    const hut: Option<FarmHut>
    /** What the worker holds in its hand. */
    const held: Slot

    var stage: Stage
    var delay: int
    var harvestCounter: int
    var currentFarmLand: Option<BlockPos>
    var farmAbleLand: seq<BlockPos>
    var plowedLand: seq<BlockPos>
    var crops: seq<BlockPos>
    var crops2: seq<BlockPos>
    var itemsNeeded: seq<Item>
    var needItem: Option<ToolKind>

    ghost function Snapshot(): Farmer
      reads this
    {
      Farmer(stage, delay, harvestCounter, currentFarmLand, farmAbleLand, plowedLand, crops, crops2, itemsNeeded, needItem)
    }

    ghost function ChestSlots(): Option<seq<Slot>>
      reads this, chest
    {
      if chest == null then None else Some(chest.slots)
    }

    ghost function Surroundings(): Env
      reads this, world, inventory, chest
    {
      Env(world.blocks, inventory.slots, ChestSlots())
    }

    ghost function Now(): Sim
      reads this, world, inventory, chest
    {
      Sim(Snapshot(), Surroundings())
    }

    ghost predicate Valid()
      reads this, world, inventory, chest
    {
      chest != inventory && Inv(Snapshot())
    }

    constructor (world: World, inventory: Inventory, chest: Inventory?, hut: Option<FarmHut>, held: Slot, stage: Stage)
      requires chest != inventory
      ensures Valid()
      ensures this.world == world && this.inventory == inventory && this.chest == chest
      ensures this.hut == hut && this.held == held
      ensures Snapshot() == Farmer(stage, 0, 0, None, [], [], [], [], [], None)
    {
      this.world := world;
      this.inventory := inventory;
      this.chest := chest;
      this.hut := hut;
      this.held := held;
      this.stage := stage;
      delay := 0;
      harvestCounter := 0;
      currentFarmLand := None;
      farmAbleLand := [];
      plowedLand := [];
      crops := [];
      crops2 := [];
      itemsNeeded := [];
      needItem := None;
    }

    // ------------------------------------------------ inventory scanners

    /** getFirstSeed: the first slot holding a seed, or -1. */
    method GetFirstSeed() returns (slot: int)
      ensures slot == FirstMatch(inventory.slots, SeedQuery)
    {
      slot := inventory.FindFirst(SeedQuery);
    }

    /** inventoryContains(Block): the first slot holding that block, or -1. */
    method InventoryContainsBlock(block: Block) returns (slot: int)
      ensures slot == FirstMatch(inventory.slots, BlockQuery(block))
    {
      slot := inventory.FindFirst(BlockQuery(block));
    }

    /** inventoryContains(Item): the first slot holding that item, or -1. */
    method InventoryContainsItem(item: Item) returns (slot: int)
      ensures slot == FirstMatch(inventory.slots, ItemQuery(item))
    {
      slot := inventory.FindFirst(ItemQuery(item));
    }

    /** inventoryContainsMany(Block): how many of that block the inventory holds. */
    method InventoryContainsManyBlock(block: Block) returns (count: int)
      ensures count == CountMatching(inventory.slots, BlockQuery(block))
    {
      count := inventory.CountAll(BlockQuery(block));
    }

    /**
     * inventoryContainsMany(Item): only stacks of block items are counted,
     * so an item that is not a block always counts zero.
     */
    method InventoryContainsManyItem(item: Item) returns (count: int)
      ensures count == CountMatching(inventory.slots, ItemBlockQuery(item))
      ensures !item.BlockItem? ==> count == 0
    {
      count := inventory.CountAll(ItemBlockQuery(item));
      if !item.BlockItem? {
        NonBlockItemCountsZero(inventory.slots, item);
      }
    }

    // ------------------------------------------------- seeds and tools

    method HasSeed() returns (found: bool)
      modifies this
      ensures (found, Snapshot()) == FarmerSpec.HasSeed(old(Snapshot()), inventory.slots)
    {
      var slot := inventory.FindFirst(SeedQuery);
      if slot >= 0 {
        return true;
      }
      stage := NEED_SEEDS;
      return false;
    }

    method HasSeedInHut() returns (found: bool)
      requires chest != inventory
      modifies inventory, chest
      ensures (found, Surroundings()) == FarmerSpec.HasSeedInHut(old(Surroundings()))
    {
      if chest == null {
        return false;
      }
      var k := chest.FindFirst(SeedQuery);
      if k == -1 {
        return false;
      }
      TransferStack(chest, k, inventory);
      return true;
    }

    /** isInHut(Item). */
    method IsInHut(item: Item) returns (found: bool)
      requires chest != inventory
      modifies inventory, chest
      ensures (found, Surroundings()) == FarmerSpec.IsInHut(old(Now()), item)
    {
      if chest == null {
        return false;
      }
      var k := chest.FindFirst(NeedQuery(item, needItem));
      if k == -1 {
        return false;
      }
      TransferStack(chest, k, inventory);
      return true;
    }

    method HasAllTheTools() returns (all: bool)
      modifies this
      ensures (all, Snapshot()) == FarmerSpec.HasAllTheTools(old(Snapshot()), inventory.slots, held)
    {
      var hoeInHand := held.Some? && ToolOf(held.value.item) == Some(HoeTool);
      var spadeInHand := held.Some? && ToolOf(held.value.item) == Some(ShovelTool);
      var hasSpade := inventory.FindFirst(ToolQuery(ShovelTool));
      var hasHoe := inventory.FindFirst(ToolQuery(HoeTool));
      var spade := hasSpade > -1 || spadeInHand;
      var hoe := hoeInHand || hasHoe > -1;
      if !spade {
        itemsNeeded := AddIfAbsent(itemsNeeded, Shovel(Iron));
        needItem := Some(ShovelTool);
      } else if !hoe {
        itemsNeeded := AddIfAbsent(itemsNeeded, Hoe(Iron));
        needItem := Some(HoeTool);
      }
      all := hoe && spade;
    }

    // ------------------------------------------------------- land scan

    /** One cell of the scan. */
    method ScanCellAt(p: BlockPos)
      modifies this
      ensures Snapshot() == ScanCell(old(Snapshot()), world.blocks, p)
    {
      var ground := world.GetBlock(Below(p)).block;
      if ground == Dirt || ground == Grass {
        if world.GetBlock(Above(p)).block == Air && p !in farmAbleLand {
          farmAbleLand := farmAbleLand + [p];
        }
      } else if ground == Farmland {
        if IsCropBlock(world.GetBlock(p).block) {
          if p !in crops {
            crops := crops + [p];
          }
        } else if p !in plowedLand {
          plowedLand := plowedLand + [p];
        }
      }
    }

    /** The scan's inner loop: the cells (x, y, z) for z from zlo up to, not including, zhi. */
    method ScanRow(x: int, y: int, zlo: int, zhi: int)
      modifies this
      ensures Snapshot() == ScanCells(old(Snapshot()), world.blocks, Row(x, y, zlo, zhi))
    {
      var z := zlo;
      while z < zhi
        invariant zlo <= z && (z <= zhi || z == zlo)
        invariant Snapshot() == ScanCells(old(Snapshot()), world.blocks, Row(x, y, zlo, z))
      {
        ScanCellAt(BlockPos(x, y, z));
        ghost var run := Row(x, y, zlo, z + 1);
        assert run[..|run| - 1] == Row(x, y, zlo, z);
        z := z + 1;
      }
      assert Row(x, y, zlo, z) == Row(x, y, zlo, zhi);
    }

    method SearchFarmableLand()
      modifies this
      ensures Snapshot() == SearchLand(old(Snapshot()), world.blocks, hut)
    {
      if hut.None? {
        return;
      }
      var c := hut.value.location;
      var r := hut.value.farmRadius;
      ghost var f0 := Snapshot();
      ghost var blocks := world.blocks;
      var xlo, zlo := c.x - r - 1, c.z - r - 1;
      ghost var xhi, zhi := c.x + r + 2, c.z + r + 2;
      var x := xlo;
      while x <= c.x + r + 1
        invariant xlo <= x && (x <= xhi || x == xlo)
        invariant Snapshot() == ScanCells(f0, blocks, Grid(xlo, x, c.y, zlo, zhi))
      {
        ScanRow(x, c.y, zlo, c.z + r + 2);
        ScanCellsAppend(f0, blocks, Grid(xlo, x, c.y, zlo, zhi), Row(x, c.y, zlo, zhi));
        x := x + 1;
      }
      assert Grid(xlo, x, c.y, zlo, zhi) == ScanArea(hut.value);
      stage := WORKING;
    }

    // ------------------------------------------------------- handlers

    /** make_land. */
    method MakeLand()
      modifies this, world
      ensures Now() == FarmerSpec.MakeLand(old(Now()))
    {
      if |farmAbleLand| > 0 {
        var h := farmAbleLand[0];
        if world.GetBlock(Below(h)).block != Farmland {
          delay := PLOW_DELAY;
          world.SetBlock(Below(h), Farmland);
          currentFarmLand := Some(Below(h));
        }
        if h !in plowedLand {
          plowedLand := plowedLand + [h];
          farmAbleLand := farmAbleLand[1..];
        }
      } else if |plowedLand| == 0 && |crops| == 0 {
        stage := SEARCHING_LAND;
      } else {
        stage := WORKING;
      }
    }

    /** The empty-cell branch of planting: reset the ground, then sow. */
    method SowHead()
      requires |plowedLand| > 0
      requires chest != inventory
      modifies this, world, inventory
      ensures Now() == Sow(old(Now()))
    {
      var h := plowedLand[0];
      world.SetBlock(Below(h), Farmland);
      delay := PLOW_DELAY;
      currentFarmLand := Some(Below(h));
      SowFirstSeed();
    }

    /** Sowing the first seed of the inventory on the head of plowedLand. */
    method SowFirstSeed()
      requires |plowedLand| > 0
      requires chest != inventory
      modifies this, world, inventory
      ensures Now() == SowSeed(old(Now()))
    {
      var h := plowedLand[0];
      var slot := GetFirstSeed();
      var seed := inventory.StackInSlot(slot);
      if seed.None? {
        stage := WORKING;
        return;
      }
      ghost var f0 := Snapshot();
      ghost var chest0 := ChestSlots();
      var crop := CropFor(seed.value.item);
      if crop.Some? {
        world.SetBlock(h, crop.value);
      }
      inventory.DecrStackSize(slot, 1);
      assert ChestSlots() == chest0;
      delay := PLANT_DELAY;
      if h !in crops {
        crops := crops + [h];
        plowedLand := plowedLand[1..];
      }
      assert Snapshot() == MoveToCrops(f0.(delay := PLANT_DELAY), h);
    }

    method Planting()
      requires chest != inventory
      modifies this, world, inventory
      ensures Now() == FarmerSpec.Planting(old(Now()))
    {
      if |plowedLand| > 0 {
        var h := plowedLand[0];
        if world.GetBlock(Below(h)).block == Farmland {
          if world.GetBlock(h).block == Air {
            SowHead();
          } else if h !in crops {
            crops := crops + [h];
            plowedLand := plowedLand[1..];
          }
        } else if h !in farmAbleLand {
          farmAbleLand := farmAbleLand + [h];
          plowedLand := plowedLand[1..];
        }
      } else if |plowedLand| == 0 && |crops| == 0 {
        stage := SEARCHING_LAND;
      } else {
        stage := WORKING;
      }
    }

    /** The ripe branch of harvesting. */
    method ReapHead(drops: seq<ItemStack>)
      requires |crops| > 0
      requires chest != inventory
      modifies this, world, inventory
      ensures Now() == Reap(old(Now()), drops)
    {
      var h := crops[0];
      inventory.SetStacks(drops);
      world.SetBlock(h, Air);
      harvestCounter := harvestCounter + 1;
      if h !in plowedLand {
        plowedLand := plowedLand + [h];
        crops := crops[1..];
      }
    }

    /** harvesting; `arrived` answers whether the worker is at the head cell, `drops` is what that block drops. */
    method Harvesting(arrived: bool, drops: seq<ItemStack>)
      requires chest != inventory
      modifies this, world, inventory
      ensures Now() == FarmerSpec.Harvesting(old(Now()), arrived, drops)
    {
      if |crops| > 0 {
        delay := HARVEST_DELAY;
        var h := crops[0];
        var block := world.GetBlock(h);
        if arrived {
          if IsMature(block) {
            ReapHead(drops);
          } else {
            crops2 := crops2 + [h];
            crops := crops[1..];
          }
        }
      } else if |plowedLand| == 0 && |crops| == 0 {
        stage := SEARCHING_LAND;
      } else {
        stage := WORKING;
      }
      assert Now() == HarvestStep(old(Now()), arrived, drops);
      if harvestCounter == HARVESTS_PER_LOAD {
        stage := FULL_INVENTORY;
        harvestCounter := 0;
      }
    }

    /** dumpInventory; `arrived` answers whether the worker is at the hut. */
    method DumpInventory(arrived: bool)
      requires chest != inventory
      modifies this, inventory, chest
      ensures Now() == Dump(old(Now()), arrived)
    {
      if !arrived {
        return;
      }
      var i := 0;
      while i < |inventory.slots|
        invariant 0 <= i <= |inventory.slots| == |old(inventory.slots)|
        invariant Snapshot() == old(Snapshot())
        invariant DumpFrom(old(inventory.slots), old(ChestSlots()), 0) == DumpFrom(inventory.slots, ChestSlots(), i)
      {
        var stack := inventory.StackInSlot(i);
        if stack.Some? && !IsTool(stack) && chest != null {
          TransferStack(inventory, i, chest);
        }
        i := i + 1;
      }
      stage := WORKING;
    }

    /** The NEED_SEEDS case of the dispatch. */
    method SeekSeeds(arrived: bool)
      requires chest != inventory
      modifies this, inventory, chest
      ensures Now() == NeedSeeds(old(Now()), arrived)
    {
      if arrived {
        delay := NEED_SEEDS_DELAY;
        var has := HasSeed();
        if !has {
          has := HasSeedInHut();
        }
        if has {
          stage := PLANTING;
        }
      }
    }

    /** The WORKING case of the dispatch: the router. */
    method RouteWork()
      modifies this
      ensures Snapshot() == Working(old(Snapshot()), inventory.slots)
    {
      if |farmAbleLand| == 0 && |plowedLand| == 0 && |crops| == 0 {
        stage := SEARCHING_LAND;
        return;
      }
      var seeded := HasSeed();
      if !seeded && |crops| + |crops2| < ENOUGH_CROPS {
        stage := NEED_SEEDS;
      } else if |farmAbleLand| > 0 {
        stage := MAKING_LAND;
      } else {
        seeded := HasSeed();
        if seeded && |plowedLand| > 0 {
          stage := PLANTING;
        } else if |crops| > 0 {
          stage := HARVESTING;
        }
      }
    }

    /** The items-needed block of updateTask, run once the worker is at the hut. */
    method ResolveItemsNeeded()
      requires chest != inventory
      modifies this, inventory, chest
      ensures Now() == Resolve(old(Now()), held, old(itemsNeeded))
    {
      var l := itemsNeeded;
      var i := 0;
      while i < |l|
        invariant 0 <= i <= |l|
        invariant Resolve(old(Now()), held, l) == Resolve(Now(), held, l[i..])
      {
        var e := l[i];
        var found := IsInHut(e);
        if !found {
          found := HasAllTheTools();
          if !found {
            var slot := InventoryContainsItem(e);
            found := slot != -1;
          }
        }
        if found {
          itemsNeeded := RemoveItem(itemsNeeded, e);
          return;
        }
        assert l[i..][1..] == l[i + 1..];
        i := i + 1;
      }
      delay := NEED_ITEM_DELAY;
    }

    /** The stage dispatch. */
    method RunStage(arrived: bool, drops: seq<ItemStack>)
      requires chest != inventory
      modifies this, world, inventory, chest
      ensures Now() == Dispatch(old(Now()), hut, arrived, drops)
    {
      match stage
        case FULL_INVENTORY => DumpInventory(arrived);
        case SEARCHING_LAND => SearchFarmableLand();
        case MAKING_LAND => MakeLand();
        case NEED_SEEDS => SeekSeeds(arrived);
        case WORKING => RouteWork();
        case PLANTING => Planting();
        case HARVESTING => Harvesting(arrived, drops);
    }

    /** The first step of updateTask: with no crops left, the immature ones are tried again. */
    method RetryImmatureCrops()
      modifies this
      ensures Snapshot() == Retry(old(Snapshot()))
    {
      if |crops| == 0 && |crops2| != 0 {
        crops := crops + crops2;
        crops2 := [];
        stage := NEED_SEEDS;
      }
    }

    /**
     * updateTask: one tick. `arrived` answers the tick's one walk to the hut
     * or to a crop, `drops` is what a harvested crop drops.
     */
    method UpdateTask(arrived: bool, drops: seq<ItemStack>)
      requires Valid()
      modifies this, world, inventory, chest
      ensures Valid()
      ensures Now() == FarmerSpec.UpdateTask(old(Now()), held, hut, arrived, drops)
    {
      if hut.None? {
        return;
      }
      RetryImmatureCrops();
      if delay > 0 {
        delay := delay - 1;
      } else if |itemsNeeded| > 0 {
        if arrived {
          ResolveItemsNeeded();
        }
      } else {
        var tools := HasAllTheTools();
        if tools {
          RunStage(arrived, drops);
        }
      }
      UpdateTaskKeepsInv(old(Now()), held, hut, arrived, drops);
    }
  }
}
