# minecolonies: farmer AI, work orders, citizen records and two path goals

A Dafny model of five pieces of the minecolonies Minecraft mod, with proofs
of what each promises.

- **The farmer's work cycle** (`EntityAIWorkFarmer`). Once per tick the
  farmer runs one of seven stages. Its caches of coordinates are
  `farmAbleLand`, `plowedLand`, `crops` and `crops2` (crops that were not
  yet ripe). It also keeps a `delay` and a harvest counter.
  - Module `FarmerSpec` states each stage handler as a function of a
    snapshot: the AI's fields, the world's blocks, the worker's inventory
    and the hut's chest.
  - Class `FarmerAI.EntityAIWorkFarmer` runs the same handlers in place, on
    `World` and `Inventory` objects. Each method is proved to end in the
    state its function computes.
  - The lemmas then prove what the farmer does:
    - the stage router follows its priority list;
    - the land scan covers a square and files each cell correctly;
    - plowing, planting and harvesting move one coordinate between caches;
    - the harvest counter stays below fifteen;
    - dumping the inventory neither loses nor creates a stack;
    - one tick keeps the AI's invariant.
- **The work-order registry** (`WorkManager`): a map from id to order plus
  the counter that hands out fresh ids. Operations are add, remove, look
  up, find unclaimed, clear a citizen's claims, reload with claim repair,
  and the periodic sweep of invalid orders.
- **The citizen record** (`CitizenData`): home building, work building and
  job as an ownership state machine, in which an illegal reassignment
  throws. It also covers the dirty flag, initial skills, name generation,
  and the save/load field mapping over tag compounds (module `Nbt`).
- **The find-water goal** (`PathJobFindWater`): the goal test a fisherman's
  path search applies to each node.
- **The move-away goal** (`PathJobMoveAwayFromLocation`): a squared-distance
  threshold, its score and its Manhattan heuristic.

Some things are inputs to the model:
- the world's answer to "is this a pond";
- the navigation oracle "has the worker arrived";
- the drops of a harvested block;
- the random draws;
- the subclass hooks of work orders and jobs.

## Model

Source paths are relative to the repository root.

| member | source | states |
|---|---|---|
| FarmerAI.EntityAIWorkFarmer.constructor | src/main/java/com/minecolonies/entity/ai/EntityAIWorkFarmer.java:63-66 | a new AI starts in the given stage with every cache empty, no delay, a zero harvest counter and nothing needed, and satisfies the invariant |
| FarmerAI.EntityAIWorkFarmer.UpdateTask | src/main/java/com/minecolonies/entity/ai/EntityAIWorkFarmer.java:81-189 | one tick changes the AI, world, inventory and chest exactly as the tick function says, and keeps the invariant |
| FarmerSpec.UpdateTaskKeepsInv | src/main/java/com/minecolonies/entity/ai/EntityAIWorkFarmer.java:81-189 | every tick keeps the delay non-negative and the harvest counter in [0, 15); the needed-items list stays free of duplicates, and is non-empty only while a needed tool kind is recorded |
| FarmerSpec.NoHutNoTick | src/main/java/com/minecolonies/entity/ai/EntityAIWorkFarmer.java:84-85 | without a work building a tick changes nothing |
| FarmerAI.EntityAIWorkFarmer.RetryImmatureCrops | src/main/java/com/minecolonies/entity/ai/EntityAIWorkFarmer.java:87-92 | the first step of a tick is the retry rule and nothing else |
| FarmerSpec.RetryMovesImmatureCrops | src/main/java/com/minecolonies/entity/ai/EntityAIWorkFarmer.java:87-92 | if crops is empty and crops2 is not, crops2 becomes crops, crops2 is emptied and the stage is NEED_SEEDS; otherwise nothing changes; afterwards "no crops" implies "no immature crops" |
| FarmerSpec.DelayOnlyCountsDown | src/main/java/com/minecolonies/entity/ai/EntityAIWorkFarmer.java:94-114 | while the delay is positive, a tick does the retry step and decrements the delay, and touches nothing else (no world, inventory or chest change) |
| FarmerAI.EntityAIWorkFarmer.ResolveItemsNeeded | src/main/java/com/minecolonies/entity/ai/EntityAIWorkFarmer.java:115-133 | the loop over a copy of the needed items ends in the state the resolution function computes: the first item found is crossed off and the tick ends, or the farmer waits 50 ticks |
| FarmerSpec.ResolveOutcome | src/main/java/com/minecolonies/entity/ai/EntityAIWorkFarmer.java:115-133 | resolving needed items either sets the delay to 50, or leaves the delay and crosses off an item of the list; it keeps the invariant and leaves the blocks and the stage alone |
| FarmerSpec.MissingToolBlocksWork | src/main/java/com/minecolonies/entity/ai/EntityAIWorkFarmer.java:134-188 | missing a shovel, a tick only asks for an iron shovel and records the kind needed; no stage handler runs and the world, inventory and chest are unchanged |
| FarmerAI.EntityAIWorkFarmer.RunStage | src/main/java/com/minecolonies/entity/ai/EntityAIWorkFarmer.java:136-187 | each stage runs its own handler, in the state the dispatch function computes |
| FarmerSpec.DispatchKeepsInv | src/main/java/com/minecolonies/entity/ai/EntityAIWorkFarmer.java:136-187 | every stage handler keeps the invariant |
| FarmerAI.EntityAIWorkFarmer.SeekSeeds | src/main/java/com/minecolonies/entity/ai/EntityAIWorkFarmer.java:147-158 | at the hut the farmer waits 200 ticks and moves to PLANTING once a seed is in its inventory or fetched from the chest; elsewhere nothing happens |
| FarmerSpec.NeedSeedsKeepsInv | src/main/java/com/minecolonies/entity/ai/EntityAIWorkFarmer.java:147-158 | the NEED_SEEDS case keeps the invariant |
| FarmerAI.EntityAIWorkFarmer.RouteWork | src/main/java/com/minecolonies/entity/ai/EntityAIWorkFarmer.java:159-180 | the WORKING case, including the stage change hasSeed makes when it finds no seed, ends in the router function's state |
| FarmerSpec.WorkingFollowsRoute | src/main/java/com/minecolonies/entity/ai/EntityAIWorkFarmer.java:159-180 | when the retry rule does not apply, WORKING changes only the stage, to the first of SEARCHING_LAND, NEED_SEEDS, MAKING_LAND, PLANTING, HARVESTING whose condition holds, and never stays WORKING |
| FarmerSpec.WorkingFallsThroughWithoutRetry | src/main/java/com/minecolonies/entity/ai/EntityAIWorkFarmer.java:159-180 | when none of the router's conditions hold (no seed, only plowed land, ten immature crops), it is hasSeed's own side effect that sets NEED_SEEDS |
| FarmerSpec.SearchAndRouteAlternate | src/main/java/com/minecolonies/entity/ai/EntityAIWorkFarmer.java:141-163 | with no delay, nothing needed and both tools, SEARCHING_LAND always ends in WORKING, and WORKING with every cache empty goes back to SEARCHING_LAND changing nothing else |
| FarmerAI.EntityAIWorkFarmer.SearchFarmableLand | src/main/java/com/minecolonies/entity/ai/EntityAIWorkFarmer.java:190-235 | the nested scan loop ends in the state of the scan function over the hut's square, then the stage is WORKING; with no hut it does nothing |
| FarmerAI.EntityAIWorkFarmer.ScanRow | src/main/java/com/minecolonies/entity/ai/EntityAIWorkFarmer.java:201-232 | the inner loop equals scanning the row of cells in z order |
| FarmerAI.EntityAIWorkFarmer.ScanCellAt | src/main/java/com/minecolonies/entity/ai/EntityAIWorkFarmer.java:203-231 | one cell is filed exactly as the cell rule says |
| FarmerSpec.ScanCellsAppend | src/main/java/com/minecolonies/entity/ai/EntityAIWorkFarmer.java:199-233 | scanning two runs of cells is scanning the first, then the second |
| FarmerSpec.RowMembership | src/main/java/com/minecolonies/entity/ai/EntityAIWorkFarmer.java:201 | a row holds exactly the cells of its x and y with z in its range |
| FarmerSpec.GridMembership | src/main/java/com/minecolonies/entity/ai/EntityAIWorkFarmer.java:199-201 | the grid holds exactly the cells with x and z in their ranges at the given y |
| FarmerSpec.ScanAreaIsSquare | src/main/java/com/minecolonies/entity/ai/EntityAIWorkFarmer.java:195-203 | the scan visits exactly the x and z in [b - r - 1, b + r + 1] at the hut's height (ground examined one below, air test one above) |
| FarmerSpec.ScanAppends | src/main/java/com/minecolonies/entity/ai/EntityAIWorkFarmer.java:203-231 | the scan changes only the three lists and keeps each old list as a prefix |
| FarmerSpec.ScanClassifies | src/main/java/com/minecolonies/entity/ai/EntityAIWorkFarmer.java:203-231 | every added cell was visited and is what its list says: dirt or grass with air above, farmland under a crop block, or farmland with no crop |
| FarmerSpec.ScanComplete | src/main/java/com/minecolonies/entity/ai/EntityAIWorkFarmer.java:203-231 | every visited cell of each kind ends up in that kind's list |
| FarmerSpec.ScanNoDup | src/main/java/com/minecolonies/entity/ai/EntityAIWorkFarmer.java:209-229 | a coordinate already in its list is never added again: lists without duplicates stay so |
| FarmerSpec.SearchEndsWorking | src/main/java/com/minecolonies/entity/ai/EntityAIWorkFarmer.java:234 | after a scan the stage is WORKING |
| FarmerSpec.SearchLandKeepsInv | src/main/java/com/minecolonies/entity/ai/EntityAIWorkFarmer.java:190-235 | the scan keeps the invariant |
| FarmerAI.EntityAIWorkFarmer.MakeLand | src/main/java/com/minecolonies/entity/ai/EntityAIWorkFarmer.java:237-265 | make_land in place ends in the plowing function's state |
| FarmerSpec.MakeLandPlowsHead | src/main/java/com/minecolonies/entity/ai/EntityAIWorkFarmer.java:239-253 | the ground under the head of farmAbleLand becomes farmland, no other block changes, and the head moves to the end of plowedLand if not already there; the two lists keep their combined size and the other caches, the stage, the inventory and the chest are untouched |
| FarmerSpec.MakeLandKeepsPlowedHead | src/main/java/com/minecolonies/entity/ai/EntityAIWorkFarmer.java:248-252 | a head already in plowedLand and on farmland stays at the head, so make_land then changes nothing |
| FarmerSpec.MakeLandWhenDone | src/main/java/com/minecolonies/entity/ai/EntityAIWorkFarmer.java:254-264 | with farmAbleLand empty the stage becomes SEARCHING_LAND if plowedLand and crops are empty, WORKING otherwise; the world is untouched |
| FarmerSpec.MakeLandKeepsInv | src/main/java/com/minecolonies/entity/ai/EntityAIWorkFarmer.java:237-265 | plowing keeps the invariant |
| FarmerAI.EntityAIWorkFarmer.Planting | src/main/java/com/minecolonies/entity/ai/EntityAIWorkFarmer.java:267-338 | planting in place ends in the planting function's state |
| FarmerAI.EntityAIWorkFarmer.SowHead | src/main/java/com/minecolonies/entity/ai/EntityAIWorkFarmer.java:274-316 | the empty-cell branch: reset the ground and delay, then sow |
| FarmerAI.EntityAIWorkFarmer.SowFirstSeed | src/main/java/com/minecolonies/entity/ai/EntityAIWorkFarmer.java:280-316 | sowing the first seed slot ends in the sowing function's state, the chest untouched |
| FarmWorld.CropFor | src/main/java/com/minecolonies/entity/ai/EntityAIWorkFarmer.java:288-307 | the five seed-to-crop mappings, each an if-and-only-if: wheat seeds to wheat, pumpkin seeds to pumpkin stem, melon seeds to melon stem, potato to potatoes, carrot to carrots; only a seed gives a crop, and that crop is a crop block other than a melon or pumpkin block |
| FarmerSpec.PlantingPlantsOneSeed | src/main/java/com/minecolonies/entity/ai/EntityAIWorkFarmer.java:272-316 | on empty farmland with a seed in the inventory, the seed's crop is set, the ground stays farmland, exactly one unit leaves the first seed slot, the delay is 10 and the cell moves to crops unless already there |
| FarmerSpec.PlantingReturnsUnplowed | src/main/java/com/minecolonies/entity/ai/EntityAIWorkFarmer.java:318-325 | a plowed cell whose ground is no longer farmland moves back to the end of farmAbleLand; nothing else changes |
| FarmerSpec.PlantingWithoutSeed | src/main/java/com/minecolonies/entity/ai/EntityAIWorkFarmer.java:280-286 | without a seed the farmer returns to WORKING with the cell still queued and the inventory unchanged |
| FarmerSpec.PlantingKeepsInv | src/main/java/com/minecolonies/entity/ai/EntityAIWorkFarmer.java:267-338 | planting keeps the invariant |
| FarmerAI.EntityAIWorkFarmer.Harvesting | src/main/java/com/minecolonies/entity/ai/EntityAIWorkFarmer.java:340-400 | harvesting in place ends in the harvesting function's state |
| FarmerAI.EntityAIWorkFarmer.ReapHead | src/main/java/com/minecolonies/entity/ai/EntityAIWorkFarmer.java:350-375 | a ripe head's drops go into the inventory, its block becomes air, the counter goes up and the cell moves to plowedLand unless already there |
| FarmerSpec.HarvestingAtHead | src/main/java/com/minecolonies/entity/ai/EntityAIWorkFarmer.java:342-381 | at the head cell a ripe crop (melon, pumpkin or metadata 7) is cleared to air, counted, its drops stored, and its cell moved to plowedLand unless already there; an unripe one moves to the end of crops2 with the world untouched and the counter unchanged |
| FarmerSpec.HarvestCounterBounded | src/main/java/com/minecolonies/entity/ai/EntityAIWorkFarmer.java:395-399 | the counter stays in [0, 15): the harvest that reaches 15 forces FULL_INVENTORY and resets it to 0 |
| FarmerAI.EntityAIWorkFarmer.GetFirstSeed | src/main/java/com/minecolonies/entity/ai/EntityAIWorkFarmer.java:402-418 | the first slot holding a seed, or -1 when none does |
| FarmerAI.EntityAIWorkFarmer.HasSeed | src/main/java/com/minecolonies/entity/ai/EntityAIWorkFarmer.java:425-443 | the slot loop agrees with hasSeed's function, including its stage change |
| FarmerSpec.HasSeed | src/main/java/com/minecolonies/entity/ai/EntityAIWorkFarmer.java:425-443 | true exactly when some slot holds a seed; false also sets the stage to NEED_SEEDS, true changes nothing |
| FarmerAI.EntityAIWorkFarmer.HasSeedInHut | src/main/java/com/minecolonies/entity/ai/EntityAIWorkFarmer.java:445-478 | in place, the chest-to-worker move ends where hasSeedInHut's function says |
| FarmerSpec.HasSeedInHut | src/main/java/com/minecolonies/entity/ai/EntityAIWorkFarmer.java:445-478 | true exactly when the hut has a chest with a seed in it; false changes nothing; the blocks are never touched |
| FarmerAI.EntityAIWorkFarmer.IsInHut | src/main/java/com/minecolonies/entity/ai/EntityAIWorkFarmer.java:520-552 | in place, the move of the first chest stack that is the item or a tool of the kind asked for ends where the function says |
| FarmerSpec.IsInHut | src/main/java/com/minecolonies/entity/ai/EntityAIWorkFarmer.java:520-552 | true exactly when the hut has a chest holding a stack that is the item, or a tool of the recorded kind; false means nothing moved; the blocks are never touched and the chest's presence is kept |
| FarmerSpec.SeedFetchConserves | src/main/java/com/minecolonies/entity/ai/EntityAIWorkFarmer.java:462-471 | fetching seeds from the chest neither loses nor creates a stack: inventory and chest together hold the same bag |
| FarmerSpec.ItemFetchConserves | src/main/java/com/minecolonies/entity/ai/EntityAIWorkFarmer.java:537-546 | fetching a needed item from the chest neither loses nor creates a stack: inventory and chest together hold the same bag |
| FarmerAI.EntityAIWorkFarmer.DumpInventory | src/main/java/com/minecolonies/entity/ai/EntityAIWorkFarmer.java:554-579 | the slot loop ends in the dumping function's state: at the hut every non-tool stack is offered to the chest, then the stage is WORKING |
| FarmerSpec.DumpKeepsTools | src/main/java/com/minecolonies/entity/ai/EntityAIWorkFarmer.java:558-576 | tools stay in their slots, and without a chest nothing moves |
| FarmerSpec.DumpConserves | src/main/java/com/minecolonies/entity/ai/EntityAIWorkFarmer.java:558-576 | dumping neither loses nor creates a stack: inventory and chest together hold the same bag of stacks |
| FarmerAI.EntityAIWorkFarmer.HasAllTheTools | src/main/java/com/minecolonies/entity/ai/EntityAIWorkFarmer.java:581-615 | the method agrees with hasAllTheTools' function |
| FarmerSpec.HasAllTheTools | src/main/java/com/minecolonies/entity/ai/EntityAIWorkFarmer.java:581-615 | true exactly when a shovel and a hoe are each held or in the inventory; a missing shovel is asked for first, then a missing hoe, each added once; true changes nothing |
| FarmerSpec.AddIfAbsent | src/main/java/com/minecolonies/entity/ai/EntityAIWorkFarmer.java:605-611 | the item is in the list afterwards, nothing is lost, and no duplicate is created |
| FarmerSpec.RemoveItem | src/main/java/com/minecolonies/entity/ai/EntityAIWorkFarmer.java:126 | one occurrence of a present item is removed; nothing is added; in a list without duplicates the item is gone |
| FarmerAI.EntityAIWorkFarmer.InventoryContainsBlock | src/main/java/com/minecolonies/entity/ai/EntityAIWorkFarmer.java:657-673 | the first slot holding that block's item, or -1 |
| FarmerAI.EntityAIWorkFarmer.InventoryContainsItem | src/main/java/com/minecolonies/entity/ai/EntityAIWorkFarmer.java:675-696 | the first slot holding that item, or -1 |
| FarmerAI.EntityAIWorkFarmer.InventoryContainsManyBlock | src/main/java/com/minecolonies/entity/ai/EntityAIWorkFarmer.java:698-716 | the total size of the stacks of that block |
| FarmerAI.EntityAIWorkFarmer.InventoryContainsManyItem | src/main/java/com/minecolonies/entity/ai/EntityAIWorkFarmer.java:718-736 | the total size of the stacks of that item among block items only; an item that is not a block counts 0 |
| FarmWorld.NonBlockItemCountsZero | src/main/java/com/minecolonies/entity/ai/EntityAIWorkFarmer.java:718-736 | counting a non-block item always gives 0, even when it is in the inventory |
| FarmWorld.FirstMatch | src/main/java/com/minecolonies/entity/ai/EntityAIWorkFarmer.java:404-417 | -1 exactly when no slot matches; otherwise a matching slot with no match before it |
| FarmWorld.Inventory.FindFirst | src/main/java/com/minecolonies/entity/ai/EntityAIWorkFarmer.java:404-417 | the slot loop with early return finds the first match, or -1 when there is none |
| FarmWorld.Inventory.CountAll | src/main/java/com/minecolonies/entity/ai/EntityAIWorkFarmer.java:700-715 | the counting loop adds up the sizes of exactly the matching stacks |
| FarmWorld.ToolOf | src/main/java/com/minecolonies/entity/ai/EntityAIWorkFarmer.java:593-594 | an item is a hoe tool exactly when it is a hoe, a shovel tool exactly when it is a shovel |
| FarmWorld.Decr | src/main/java/com/minecolonies/entity/ai/EntityAIWorkFarmer.java:308 | decrStackSize: only that slot changes; it loses n, and is emptied when n is at least its size |
| FarmWorld.Inventory.DecrStackSize | src/main/java/com/minecolonies/entity/ai/EntityAIWorkFarmer.java:308 | the slots become those of decrStackSize |
| FarmWorld.Store | src/main/java/com/minecolonies/entity/ai/EntityAIWorkFarmer.java:356 | setStack puts the stack into the first empty slot; with none the inventory is unchanged and the whole stack comes back |
| FarmWorld.Inventory.SetStack | src/main/java/com/minecolonies/entity/ai/EntityAIWorkFarmer.java:356 | in place, the slots and leftover are those of setStack |
| FarmWorld.StoreConserves | src/main/java/com/minecolonies/entity/ai/EntityAIWorkFarmer.java:356 | storing loses nothing: what was there and the new stack are in the inventory or the leftover |
| FarmWorld.StoreAllConserves | src/main/java/com/minecolonies/entity/ai/EntityAIWorkFarmer.java:354-357 | storing a run of drops loses nothing: the old contents plus every drop equal the new contents plus what did not fit |
| FarmWorld.Inventory.SetStacks | src/main/java/com/minecolonies/entity/ai/EntityAIWorkFarmer.java:354-357 | the loop over the drops stores each in turn |
| FarmWorld.Transfer | src/main/java/com/minecolonies/entity/ai/EntityAIWorkFarmer.java:462-471 | moving a slot between inventories keeps both sizes and every other source slot |
| FarmWorld.TransferConserves | src/main/java/com/minecolonies/entity/ai/EntityAIWorkFarmer.java:462-471 | a move neither loses nor creates a stack; the source slot empties exactly when the destination had an empty slot |
| FarmWorld.TransferMoves | src/main/java/com/minecolonies/entity/ai/EntityAIWorkFarmer.java:462-471 | with an empty destination slot the whole stack moves into the first one |
| FarmWorld.TransferStack | src/main/java/com/minecolonies/entity/ai/EntityAIWorkFarmer.java:462-471 | setStack on the destination, then decrStackSize on the source by what was stored, is the transfer function |
| FarmWorld.World.SetBlock | src/main/java/com/minecolonies/entity/ai/EntityAIWorkFarmer.java:244 | only that position changes, to the block with metadata 0 |
| WorkOrders.WorkManager.constructor | src/main/java/com/minecolonies/colony/WorkManager.java:23-24 | an empty registry with counter 0 |
| WorkOrders.AssignId | src/main/java/com/minecolonies/colony/WorkManager.java:48-52 | id 0 becomes the counter plus one; any other id is kept; nothing else about the order changes |
| WorkOrders.Add | src/main/java/com/minecolonies/colony/WorkManager.java:48-54 | an id-0 order is stored under the advanced counter; a preset id is stored under itself, replacing any entry, with the counter unchanged; every other entry is kept; orders stay stored under their own ids |
| WorkOrders.WorkManager.AddWorkOrder | src/main/java/com/minecolonies/colony/WorkManager.java:46-55 | the registry becomes the add function's result, and the returned order carries the id it was stored under |
| WorkOrders.FreshRunIds | src/main/java/com/minecolonies/colony/WorkManager.java:48-52 | a run of id-0 adds receives top+1, top+2, … and advances the counter by its length |
| WorkOrders.FreshRunIdsIncrease | src/main/java/com/minecolonies/colony/WorkManager.java:48-52 | the ids of such a run are strictly increasing, hence distinct |
| WorkOrders.AddAllNeverLowersTop | src/main/java/com/minecolonies/colony/WorkManager.java:48-54 | no sequence of adds lowers the counter |
| WorkOrders.FreshIdIsUnused | src/main/java/com/minecolonies/colony/WorkManager.java:48-65 | while no stored id is above the counter, a fresh id is above every stored id and is unused even after a removal; removals, and adds whose id is at most the counter, keep that property |
| WorkOrders.PresetIdAboveTopIsReused | src/main/java/com/minecolonies/colony/WorkManager.java:48-54 | a preset id does not raise the counter, so an id-0 add after storing preset id 1 in an empty registry is also given 1 and replaces it |
| WorkOrders.Remove | src/main/java/com/minecolonies/colony/WorkManager.java:62-65 | exactly that key is deleted, every other entry and the counter are kept; an absent id changes nothing |
| WorkOrders.WorkManager.RemoveWorkOrder | src/main/java/com/minecolonies/colony/WorkManager.java:62-65 | the registry becomes the remove function's result |
| WorkOrders.WorkManager.RemoveOrder | src/main/java/com/minecolonies/colony/WorkManager.java:72-75 | removing an order removes by its id |
| WorkOrders.WorkManager.GetWorkOrder | src/main/java/com/minecolonies/colony/WorkManager.java:83-86 | the order stored under the id (which carries that id), or none exactly when the id is absent |
| WorkOrders.WorkManager.GetWorkOrderOfType | src/main/java/com/minecolonies/colony/WorkManager.java:95-107 | the stored order when it is of an accepted class, none when absent or of another class |
| WorkOrders.WorkManager.GetUnassignedWorkOrder | src/main/java/com/minecolonies/colony/WorkManager.java:115-126 | some stored, unclaimed order of an accepted class, and none only when no such order exists |
| WorkOrders.WorkManager.GetWorkOrdersOfType | src/main/java/com/minecolonies/colony/WorkManager.java:134-137 | exactly the stored orders of an accepted class |
| WorkOrders.ClearClaims | src/main/java/com/minecolonies/colony/WorkManager.java:144-147 | afterwards no order is claimed by the citizen; orders unclaimed or claimed by others are unchanged; the keys are kept |
| WorkOrders.WorkManager.ClearWorkForCitizen | src/main/java/com/minecolonies/colony/WorkManager.java:144-147 | the loop over the orders ends in the clear-claims function's result, with the counter unchanged |
| WorkOrders.RepairClaim | src/main/java/com/minecolonies/colony/WorkManager.java:187-190 | the order's claim, if any, names a citizen the colony resolves; an order that already did is unchanged |
| WorkOrders.LoadAllRepairs | src/main/java/com/minecolonies/colony/WorkManager.java:176-194 | after loading, each order is an untouched old one or has an id at most the counter and a claim the colony resolves; nothing is dropped, the counter does not decrease and every preset id loaded is present |
| WorkOrders.WorkManager.ReadFromNBT | src/main/java/com/minecolonies/colony/WorkManager.java:172-195 | the loading loop ends in the load function's result and keeps every order under its own id |
| WorkOrders.WorkManager.OnWorldTick | src/main/java/com/minecolonies/colony/WorkManager.java:203-222 | at END the kept orders are exactly the valid ones; when the world time is a multiple of 20 each kept unclaimed order takes the claimant that fulfilment offers, and every other kept order is unchanged; at START nothing changes; the counter never changes |
| Citizens.CitizenData.constructor | src/main/java/com/minecolonies/colony/CitizenData.java:99-103 | a new record has its id and colony, nothing assigned and nothing dirty |
| Citizens.CitizenData.InitializeFromEntity | src/main/java/com/minecolonies/colony/CitizenData.java:110-135 | gender, name and texture come from the draws; level and experience are 0; all five skills lie in [1, 4] and are drawn in the order intelligence, charisma, strength, endurance, dexterity; the record is marked dirty |
| Citizens.CitizenData.MarkDirty | src/main/java/com/minecolonies/colony/CitizenData.java:270-274 | the record and the colony's citizen list are dirty; nothing else changes |
| Citizens.Colony.MarkCitizensDirty | src/main/java/com/minecolonies/colony/CitizenData.java:273 | the colony's citizen list is marked dirty |
| Citizens.CitizenData.ClearDirty | src/main/java/com/minecolonies/colony/CitizenData.java:279-282 | the record is clean; nothing else changes |
| Citizens.SetHome | src/main/java/com/minecolonies/colony/CitizenData.java:299-310 | throws exactly when a home is already set and the new value is another building (not null); setting the same value is idle; any other change assigns the home and leaves work and job alone, without clearing claims |
| Citizens.CitizenData.SetHomeBuilding | src/main/java/com/minecolonies/colony/CitizenData.java:299-310 | in place: a throw changes nothing; a change assigns the home and marks dirty; the same home does not mark dirty |
| Citizens.SettingSameIsIdle | src/main/java/com/minecolonies/colony/CitizenData.java:305-309 | setting the value already held is idle for both setters |
| Citizens.SetWork | src/main/java/com/minecolonies/colony/CitizenData.java:327-356 | throws exactly when a work building is already set and the new value is another building (not null); the same value is idle; a new building without a job creates its job and clears claims; an existing job is kept; clearing the building drops the job, clearing claims only if there was one |
| Citizens.CitizenData.SetWorkBuilding | src/main/java/com/minecolonies/colony/CitizenData.java:327-356 | in place, and on the colony's work manager: the claims of the citizen are cleared exactly when a job is created or dropped; dirty exactly on change |
| Citizens.WorkChangeKeepsJobWithWork | src/main/java/com/minecolonies/colony/CitizenData.java:337-352 | after a change of work building, a job is held exactly when a work building is, and a job already held is never replaced |
| Citizens.ClearingNeverThrows | src/main/java/com/minecolonies/colony/CitizenData.java:329-332 | setting either building to null never throws |
| Citizens.OnRemoveClears | src/main/java/com/minecolonies/colony/CitizenData.java:364-375 | removing a building never throws; afterwards neither association is that building; an association with another building is untouched; the job goes exactly when the work building was removed |
| Citizens.CitizenData.OnRemoveBuilding | src/main/java/com/minecolonies/colony/CitizenData.java:364-375 | in place, with dirty marking and claim clearing as the two setters do |
| Citizens.CitizenData.SetJob | src/main/java/com/minecolonies/colony/CitizenData.java:442-453 | the job is set and the record marked dirty, even when the job is the same; the buildings are untouched |
| Citizens.Encode | src/main/java/com/minecolonies/colony/CitizenData.java:460-480 | writeToNBT writes the id, name, gender, texture, level, experience (as a double) and skills keys |
| Citizens.CitizenData.WriteToNBT | src/main/java/com/minecolonies/colony/CitizenData.java:460-488 | the compound gains exactly those keys, plus the job's sub-compound when a job is held; other keys keep their values |
| Citizens.CitizenData.ReadFromNBT | src/main/java/com/minecolonies/colony/CitizenData.java:495-519 | the saved fields become what the compound reads as; a job entry goes through setJob; without one the job and dirty flags are untouched |
| Citizens.CitizenData.FromNBT | src/main/java/com/minecolonies/colony/CitizenData.java:144-150 | a record built from a compound has the id the compound holds, the saved fields it decodes to, no buildings, the loaded job if there is one, and is dirty exactly when a job was loaded |
| Citizens.DecodeEncode | src/main/java/com/minecolonies/colony/CitizenData.java:460-519 | loading what was saved, over any compound, restores id, name, gender, texture, level and the five skills exactly; experience comes back rounded down |
| Citizens.ExperienceLosesFraction | src/main/java/com/minecolonies/colony/CitizenData.java:469-503 | experience 0.5 reloads as 0.0, so experience does not round-trip |
| Citizens.SaveAndReload | src/main/java/com/minecolonies/colony/CitizenData.java:460-519 | a record saved and rebuilt from the compound comes back with the same id and saved fields when its experience is whole |
| Citizens.GenerateName | src/main/java/com/minecolonies/colony/CitizenData.java:527-539 | "First M. Last": the first name from the list for the gender, a space, the drawn capital, a period and a space, then the last name |
| Citizens.RandomLetter | src/main/java/com/minecolonies/colony/CitizenData.java:559-562 | a capital letter, the draw's offset from 'A' |
| Citizens.EveryLetterDrawable | src/main/java/com/minecolonies/colony/CitizenData.java:559-562 | every capital letter is drawn by some value in [0, 26) |
| Nbt.GetInteger | src/main/java/com/minecolonies/colony/CitizenData.java:499-503 | a missing key reads 0; an int or byte tag reads its value; a double reads rounded down |
| Nbt.GetBoolean | src/main/java/com/minecolonies/colony/CitizenData.java:498 | a missing key reads false; a byte reads true exactly when not zero |
| Nbt.GetByte | src/main/java/com/minecolonies/colony/CitizenData.java:498 | the number cast to a signed byte: in [-128, 128) and congruent modulo 256 |
| Nbt.ByteOf | src/main/java/com/minecolonies/colony/CitizenData.java:498 | a Java byte cast: in range, congruent modulo 256, identity on values already in range |
| Nbt.GetString | src/main/java/com/minecolonies/colony/CitizenData.java:497 | the stored string, or "" for a missing key or another tag |
| Nbt.GetCompound | src/main/java/com/minecolonies/colony/CitizenData.java:508 | the stored compound, or an empty one |
| Nbt.SetBoolean | src/main/java/com/minecolonies/colony/CitizenData.java:464 | stored as byte 1 or 0, every other key kept |
| Nbt.SetThenGet | src/main/java/com/minecolonies/colony/CitizenData.java:462-486 | each setter's value reads back through its getter |
| Nbt.IntReadAsBooleanTruncates | src/main/java/com/minecolonies/colony/CitizenData.java:498 | an int 256 read as a boolean is false |
| Nbt.DoubleReadAsIntegerFloors | src/main/java/com/minecolonies/colony/CitizenData.java:503 | a double 2.5 read as an integer is 2 |
| FindWater.PathJobFindWater.constructor | src/main/java/com/minecolonies/entity/pathfinding/PathJobFindWater.java:41-46 | the job keeps its own copy of the caller's ponds, the hut, the start and the range, and a fresh empty result |
| FindWater.CallerEditsAfterConstruction | src/main/java/com/minecolonies/entity/pathfinding/PathJobFindWater.java:44 | a later change to the caller's list does not reach the job |
| FindWater.WaterPathResult.constructor | src/main/java/com/minecolonies/entity/pathfinding/PathJobFindWater.java:23-27 | no pond recorded yet |
| FindWater.PathJobFindWater.ComputeHeuristic | src/main/java/com/minecolonies/entity/pathfinding/PathJobFindWater.java:51-60 | non-negative, and zero exactly at the hut |
| FindWater.PathJobFindWater.IsAtDestination | src/main/java/com/minecolonies/entity/pathfinding/PathJobFindWater.java:63-86 | true exactly when the node's goal exists; then the result records that pond and whether the known list was empty; otherwise the result is untouched |
| FindWater.GoalNeedsParentAndRange | src/main/java/com/minecolonies/entity/pathfinding/PathJobFindWater.java:66-74 | a start node, or a node at squared distance above 250 from the hut, is never a destination |
| FindWater.Candidates | src/main/java/com/minecolonies/entity/pathfinding/PathJobFindWater.java:76-85 | three cells one block below the node, each next to the cell below it: when x changed, the cell ahead in x, then the z-neighbours at -1 and +1; otherwise the cell ahead in z (at -1 when z did not change either), then the x-neighbours at -1 and +1 |
| FindWater.FirstAccepted | src/main/java/com/minecolonies/entity/pathfinding/PathJobFindWater.java:79-84 | the short-circuit: the first accepted candidate, none exactly when none is accepted |
| FindWater.GoalIsSeparated | src/main/java/com/minecolonies/entity/pathfinding/PathJobFindWater.java:63-105 | a found pond is a candidate of a node with a parent within range; it is water, new, and at squared distance at least 40 from every known pond |
| FindWater.PathJobFindWater.IsWater | src/main/java/com/minecolonies/entity/pathfinding/PathJobFindWater.java:88-105 | accepts exactly a new, well separated water cell; on acceptance records it and whether no pond was known; a rejection writes nothing |
| FindWater.NearCandidateRejected | src/main/java/com/minecolonies/entity/pathfinding/PathJobFindWater.java:88-93 | a cell at squared distance below 40 from a known pond is rejected, water or not |
| FindWater.PondsAreNear | src/main/java/com/minecolonies/entity/pathfinding/PathJobFindWater.java:117-125 | true exactly when some known pond is at squared distance below 40 |
| FindWater.EmptyPondsAcceptWater | src/main/java/com/minecolonies/entity/pathfinding/PathJobFindWater.java:117-122 | with no known pond every water cell is accepted |
| FindWater.PathJobFindWater.GetNodeResultScore | src/main/java/com/minecolonies/entity/pathfinding/PathJobFindWater.java:127-131 | every node scores 0 |
| Geometry.DistanceSq | src/main/java/com/minecolonies/entity/pathfinding/PathJobFindWater.java:107-110 | the squared distance is non-negative and zero exactly between equal positions |
| Geometry.DistanceSqSymmetric | src/main/java/com/minecolonies/entity/pathfinding/PathJobFindWater.java:107-110 | the squared distance is symmetric |
| Geometry.Manhattan | src/main/java/com/minecolonies/entity/pathfinding/PathJobFindWater.java:54-59 | zero exactly between equal positions, and at least each coordinate's difference |
| Geometry.BlockPos.Add | src/main/java/com/minecolonies/entity/pathfinding/PathJobFindWater.java:79 | the position moves by exactly the given offsets |
| MoveAway.NewJob | src/main/java/com/minecolonies/entity/pathfinding/PathJobMoveAwayFromLocation.java:29-44 | avoid and avoidDistance come from the arguments; the heuristic point keeps the start's y and is offset in x and z by the projection |
| MoveAway.NodeResultScore | src/main/java/com/minecolonies/entity/pathfinding/PathJobMoveAwayFromLocation.java:84-88 | the score is non-negative and zero exactly at the avoided point |
| MoveAway.IsAtDestination | src/main/java/com/minecolonies/entity/pathfinding/PathJobMoveAwayFromLocation.java:78-82 | a node is a destination exactly when its squared distance from avoid, measured from the node, is at least avoidDistance squared |
| MoveAway.DestinationMonotone | src/main/java/com/minecolonies/entity/pathfinding/PathJobMoveAwayFromLocation.java:78-88 | a node scoring at least as high as a destination (squared distance from avoid) is a destination |
| MoveAway.AvoidIsDestinationIffZero | src/main/java/com/minecolonies/entity/pathfinding/PathJobMoveAwayFromLocation.java:78-88 | the avoided point is a destination exactly when avoidDistance is 0 |
| MoveAway.DestinationExists | src/main/java/com/minecolonies/entity/pathfinding/PathJobMoveAwayFromLocation.java:78-88 | every job has a destination: avoidDistance blocks along x from avoid |
| MoveAway.ComputeHeuristic | src/main/java/com/minecolonies/entity/pathfinding/PathJobMoveAwayFromLocation.java:67-76 | non-negative, and zero exactly at the heuristic point |
| MoveAway.HeuristicFollowsManhattan | src/main/java/com/minecolonies/entity/pathfinding/PathJobMoveAwayFromLocation.java:67-76 | ordering by heuristic is ordering by Manhattan distance to the heuristic point |

## Left out

- The generic path search (`AbstractPathJob`) is not part of this model. A node is a position with the position of its parent, and only the goal, score and heuristic hooks are modelled.
- `Pond.createWater` is a world query outside the model. It is the parameter `isPond`.
- The tie-breakers 0.501 and 1.001 are exact rationals, not doubles.
- The move-away constructor's square-root projection is an input, because it is floating point.
- The squared distances are exact integers, which is what `distanceSq` yields for integer coordinates.
- `avoidDistance * avoidDistance`, coordinates and counters are unbounded integers; Java's 32-bit wrap-around is not modelled, because the game's values stay far below it.
- The farmer's `getDelay`/`baseSpeed` (digging speed as a double) are left out, because they are floating point and unused.
- The citizen's health, max health and their save keys are left out, because they are floats.
- `setExperience`, `addExperience`, `setLevel` and `increaseLevel` of `CitizenData` are plain field writes and are not modelled.
- Citizens.Encode: the saved keys for health and max health are not written.
- Particle effects, `swingItem`, log lines and chat messages are left out; they do not change the game state the farmer works on.
- Walking is a boolean per tick (`arrived`), the answer of `isWorkerAtSiteWithMove`. A tick asks for at most one walk.
- The drops of a harvested block are a parameter (`drops`).
- `InventoryUtils.setStack` is modelled as "the whole stack into the first empty slot, or returned whole". The game's merging into partial stacks is not modelled.
- A slot index outside the inventory reads as empty; `InventoryCitizen` is not part of this model.
- `isSeed` is a fixed classification of items (the five seeds, plus any other item flagged seed-like), not a test on the item's name.
- Only a hoe counts as a hoe and only a shovel as a shovel; names and tool classes of other items are not modelled.
- The job's stage and needed-items list belong to `JobFarmer` in the source; here they are fields of the AI.
- `addItemNeededIfNotAlready` compares items by value.
- The null-item guard of `inventoryContains(Item)` is left out: there are no null items here.
- FarmerAI.EntityAIWorkFarmer.constructor: a new AI starts with an empty needed-items list and no recorded tool kind. In the source the list belongs to the job and keeps whatever it holds, while `NEED_ITEM` starts null. A job whose list is non-empty when a new AI is built would make `isInHut` read the null `NEED_ITEM` (line 535) and throw. The invariant "a non-empty list comes with a recorded kind" holds only because of this starting state, and the model does not capture that throw.
- The `CopyOnWriteArrayList` in the items-needed loop is only a copy; the loop runs over a copy of the list.
- The unused private methods `setBlockFromInventory` and `isInHut(Block)`, and the unused package-private `holdShovel` and `holdHoe`, are not modelled.
- `shouldExecute`, `continueExecuting` and `resetTask` only call the base class and are not modelled.
- `startExecuting` sets the worker's status to WORKING, which is not modelled (the entity is not part of this model), and then runs one tick, which is `UpdateTask`.
- The AI's world is a map from positions to blocks with metadata. A position never set reads as air.
- The job's writeToNBT and `AbstractJob.createFromNBT` are parameters of the citizen's save and load.
- Tag compounds follow the host's lenient getters: a missing key or a wrong tag reads as the default.
- The citizen's entity reference and `onJobChanged` are left out: the entity is not part of this model.
- `serializeViewNetworkData` and `createCitizenDataView` are network formats and are not modelled.
- The random draws (gender, name picks, texture, skills) are inputs.
- The work orders' `isValid`, `attemptToFulfill` and `createFromNBT` are parameters.
- `getUnassignedWorkOrder` depends on hash-map iteration order; only membership is promised.
- The work manager's writeToNBT is not modelled; only reading back is.
- `SchematicRenderCache` and the achievement classes are client rendering and registry glue, not part of this model.
- Citizens.SetHome: buildings are compared by value, not by identity as in the source (`homeBuilding != building`); two distinct building objects with equal location and job would count as the same building.
- Citizens.SetWork: the same value-for-identity comparison of work buildings (`getWorkBuilding() == building`).
- Citizens.OnRemoveClears: the same value-for-identity comparison when deciding whether the removed building is the home or the work building.
- Citizens.Colony: only the colony's citizens-dirty flag and its work manager are modelled; the rest of the colony is not part of this model.
