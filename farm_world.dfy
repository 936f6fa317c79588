/**
 * What the farmer sees of the game: blocks with their metadata, items and
 * item stacks, and slot inventories (the worker's own and the hut's chest).
 * The inventory operations the farmer calls from the game and its utility
 * classes are modelled here in their simplest standard form.
 */
module FarmWorld {
  import opened Optional
  import opened Geometry

  datatype Block =
    | Air | Dirt | Grass | Farmland
    | Wheat | Potatoes | Carrots | MelonStem | MelonBlock | Pumpkin | PumpkinStem
    | OtherBlock(id: int)

  /** A block and its metadata value. */
  datatype BlockState = BlockState(block: Block, meta: int)

  datatype Material = Wood | Stone | Iron | Gold | Diamond

  datatype ToolKind = ShovelTool | HoeTool

  /**
   * Items. `OtherItem` stands for every item the farmer has no rule for;
   * `seedLike` records whether its class name makes the farmer take it for a
   * seed.
   */
  datatype Item =
    | WheatSeeds | PumpkinSeeds | MelonSeeds | Potato | Carrot
    | Hoe(hoeMaterial: Material)
    | Shovel(shovelMaterial: Material)
    | BlockItem(placed: Block)
    | OtherItem(id: int, seedLike: bool)

  datatype ItemStack = ItemStack(item: Item, size: int)

  /** An inventory slot; an empty slot holds no stack. */
  type Slot = Option<ItemStack>

  /** The blocks above farmland that the land scan files as crops. */
  predicate IsCropBlock(b: Block)
  {
    b == Wheat || b == Potatoes || b == Carrots || b == MelonStem || b == MelonBlock || b == Pumpkin || b == PumpkinStem
  }

  /** A crop is ripe when it is a melon or pumpkin block, or its metadata is 7. */
  predicate IsMature(s: BlockState)
  {
    s.block == MelonBlock || s.block == Pumpkin || s.meta == 7
  }

  /** isSeed: judged by the item's class name (seeds, potatoes, carrots). */
  predicate IsSeed(item: Item)
  {
    item == WheatSeeds || item == PumpkinSeeds || item == MelonSeeds || item == Potato || item == Carrot
    || (item.OtherItem? && item.seedLike)
  }

  /** The kind of tool an item is: a hoe by its name, a shovel by its tool class. */
  function ToolOf(item: Item): (k: Option<ToolKind>)
    ensures k == Some(HoeTool) <==> item.Hoe?
    ensures k == Some(ShovelTool) <==> item.Shovel?
  {
    match item
      case Hoe(_) => Some(HoeTool)
      case Shovel(_) => Some(ShovelTool)
      case _ => None
  }

  /** isStackTool. */
  predicate IsTool(s: Slot)
  {
    s.Some? && ToolOf(s.value.item).Some?
  }

  /** The crop block a seed is planted as; other seeds plant nothing. */
  function CropFor(item: Item): (b: Option<Block>)
    ensures b.Some? ==> IsSeed(item) && IsCropBlock(b.value) && b.value != MelonBlock && b.value != Pumpkin
    ensures item == WheatSeeds <==> b == Some(Wheat)
    ensures item == PumpkinSeeds <==> b == Some(PumpkinStem)
    ensures item == MelonSeeds <==> b == Some(MelonStem)
    ensures item == Potato <==> b == Some(Potatoes)
    ensures item == Carrot <==> b == Some(Carrots)
  {
    match item
      case WheatSeeds => Some(Wheat)
      case PumpkinSeeds => Some(PumpkinStem)
      case MelonSeeds => Some(MelonStem)
      case Potato => Some(Potatoes)
      case Carrot => Some(Carrots)
      case _ => None
  }

  /** The block at a position; positions never set hold air. */
  function BlockAt(blocks: map<BlockPos, BlockState>, p: BlockPos): BlockState
  {
    if p in blocks then blocks[p] else BlockState(Air, 0)
  }

  /** What an inventory scan looks for in a slot. */
  datatype SlotQuery =
    | SeedQuery
    | ItemQuery(item: Item)
    | BlockQuery(block: Block)
    | ItemBlockQuery(wanted: Item)
    | ToolQuery(kind: ToolKind)
    | NeedQuery(needed: Item, need: Option<ToolKind>)
    | EmptyQuery

  predicate Matches(q: SlotQuery, s: Slot)
  {
    match q
      case SeedQuery => s.Some? && IsSeed(s.value.item)
      case ItemQuery(item) => s.Some? && s.value.item == item
      case BlockQuery(block) => s.Some? && s.value.item == BlockItem(block)
      case ItemBlockQuery(wanted) => s.Some? && s.value.item.BlockItem? && s.value.item == wanted
      case ToolQuery(kind) => s.Some? && ToolOf(s.value.item) == Some(kind)
      case NeedQuery(needed, need) => s.Some? && (s.value.item == needed || (need.Some? && ToolOf(s.value.item) == need))
      case EmptyQuery => s.None?
  }

  /** The first slot matching the query, or -1. */
  function FirstMatch(slots: seq<Slot>, q: SlotQuery): (k: int)
    ensures -1 <= k < |slots|
    ensures k == -1 <==> forall j :: 0 <= j < |slots| ==> !Matches(q, slots[j])
    ensures k >= 0 ==> Matches(q, slots[k]) && forall j :: 0 <= j < k ==> !Matches(q, slots[j])
    decreases |slots|
  {
    if |slots| == 0 then -1
    else if Matches(q, slots[0]) then 0
    else
      var k := FirstMatch(slots[1..], q);
      assert forall j :: 1 <= j < |slots| ==> slots[j] == slots[1..][j - 1];
      if k == -1 then -1 else k + 1
  }

  /** The total size of the stacks matching the query. */
  function CountMatching(slots: seq<Slot>, q: SlotQuery): int
    decreases |slots|
  {
    if |slots| == 0 then 0
    else
      var last := slots[|slots| - 1];
      CountMatching(slots[..|slots| - 1], q) + (if last.Some? && Matches(q, last) then last.value.size else 0)
  }

  /** Stacks count towards a query only where they match it. */
  lemma {:induction false} CountWithoutMatchesIsZero(slots: seq<Slot>, q: SlotQuery)
    requires forall j :: 0 <= j < |slots| ==> !Matches(q, slots[j])
    ensures CountMatching(slots, q) == 0
    decreases |slots|
  {
    if |slots| > 0 {
      CountWithoutMatchesIsZero(slots[..|slots| - 1], q);
    }
  }

  /**
   * inventoryContainsMany(Item) counts only stacks of block items, so for
   * any other item it is always 0, even when the item is there.
   */
  lemma NonBlockItemCountsZero(slots: seq<Slot>, item: Item)
    requires !item.BlockItem?
    ensures CountMatching(slots, ItemBlockQuery(item)) == 0
  {
    CountWithoutMatchesIsZero(slots, ItemBlockQuery(item));
  }

  /** The stack in a slot; a slot outside the inventory reads empty. */
  function StackAt(slots: seq<Slot>, i: int): (s: Slot)
    ensures !(0 <= i < |slots|) ==> s.None?
  {
    if 0 <= i < |slots| then slots[i] else None
  }

  /** decrStackSize: take `n` from the stack; a stack that would reach 0 or less is removed. */
  function Decr(slots: seq<Slot>, i: int, n: int): (slots': seq<Slot>)
    ensures |slots'| == |slots|
    ensures forall j :: 0 <= j < |slots| && j != i ==> slots'[j] == slots[j]
    ensures 0 <= i < |slots| && slots[i].Some? && slots[i].value.size <= n ==> slots'[i].None?
    ensures 0 <= i < |slots| && slots[i].Some? && slots[i].value.size > n ==>
      slots'[i] == Some(slots[i].value.(size := slots[i].value.size - n))
    ensures !(0 <= i < |slots| && slots[i].Some?) ==> slots' == slots
  {
    if 0 <= i < |slots| && slots[i].Some? then
      var s := slots[i].value;
      if s.size <= n then slots[i := None] else slots[i := Some(s.(size := s.size - n))]
    else slots
  }

  /**
   * setStack: the whole stack goes into the first empty slot; with no empty
   * slot the inventory is unchanged and the stack comes back as leftover.
   */
  function Store(slots: seq<Slot>, stack: ItemStack): (res: (seq<Slot>, Slot))
    ensures |res.0| == |slots|
    ensures var k := FirstMatch(slots, EmptyQuery);
      && (k == -1 ==> res.0 == slots && res.1 == Some(stack))
      && (k >= 0 ==> res.0 == slots[k := Some(stack)] && res.1.None?)
  {
    var k := FirstMatch(slots, EmptyQuery);
    if k == -1 then (slots, Some(stack)) else (slots[k := Some(stack)], None)
  }

  /** Every stack in the slots, as a bag. */
  function Contents(slots: seq<Slot>): multiset<ItemStack>
    decreases |slots|
  {
    if |slots| == 0 then multiset{}
    else Contents(slots[..|slots| - 1]) + SlotBag(slots[|slots| - 1])
  }

  function SlotBag(s: Slot): multiset<ItemStack>
  {
    if s.Some? then multiset{s.value} else multiset{}
  }

  /** Replacing one slot exchanges its stack for the new one in the bag. */
  lemma {:induction false} ContentsUpdate(slots: seq<Slot>, i: int, s: Slot)
    requires 0 <= i < |slots|
    ensures Contents(slots[i := s]) + SlotBag(slots[i]) == Contents(slots) + SlotBag(s)
    decreases |slots|
  {
    var n := |slots| - 1;
    var t := slots[i := s];
    assert Contents(slots) == Contents(slots[..n]) + SlotBag(slots[n]);
    assert Contents(t) == Contents(t[..n]) + SlotBag(t[n]);
    if i < n {
      assert t[..n] == slots[..n][i := s];
      ContentsUpdate(slots[..n], i, s);
      BagShuffle(Contents(slots[..n]), Contents(t[..n]), SlotBag(slots[n]), SlotBag(slots[i]), SlotBag(s));
    } else {
      assert t[..n] == slots[..n];
      BagSwap(Contents(slots[..n]), SlotBag(s), SlotBag(slots[n]));
    }
  }

  /** Union is associative and commutative: the two shapes the slot proofs need. */
  lemma BagShuffle(a: multiset<ItemStack>, a': multiset<ItemStack>, b: multiset<ItemStack>, o: multiset<ItemStack>, q: multiset<ItemStack>)
    requires a' + o == a + q
    ensures (a' + b) + o == (a + b) + q
  {
    assert (a' + b) + o == (a' + o) + b;
  }

  lemma BagSwap(a: multiset<ItemStack>, b: multiset<ItemStack>, c: multiset<ItemStack>)
    ensures (a + b) + c == (a + c) + b
  {
  }

  /** Storing a stack keeps every stack: what was there and the new one are in the inventory or the leftover. */
  lemma StoreConserves(slots: seq<Slot>, stack: ItemStack)
    ensures var r := Store(slots, stack); Contents(r.0) + SlotBag(r.1) == Contents(slots) + multiset{stack}
  {
    var k := FirstMatch(slots, EmptyQuery);
    if k >= 0 {
      ContentsUpdate(slots, k, Some(stack));
    }
  }

  /** setStack for each stack in turn; what does not fit is dropped. */
  function StoreAll(slots: seq<Slot>, stacks: seq<ItemStack>): (slots': seq<Slot>)
    ensures |slots'| == |slots|
    decreases |stacks|
  {
    if |stacks| == 0 then slots else StoreAll(Store(slots, stacks[0]).0, stacks[1..])
  }

  /** What setStack hands back, over a run of stacks: the part of the drops that did not fit. */
  function Spilled(slots: seq<Slot>, stacks: seq<ItemStack>): multiset<ItemStack>
    decreases |stacks|
  {
    if |stacks| == 0 then multiset{}
    else
      var r := Store(slots, stacks[0]);
      SlotBag(r.1) + Spilled(r.0, stacks[1..])
  }

  /** Storing a run of drops loses nothing: every drop is in the inventory or among what was spilled. */
  lemma {:induction false} StoreAllConserves(slots: seq<Slot>, stacks: seq<ItemStack>)
    ensures Contents(StoreAll(slots, stacks)) + Spilled(slots, stacks) == Contents(slots) + multiset(stacks)
    decreases |stacks|
  {
    if |stacks| > 0 {
      var r := Store(slots, stacks[0]);
      var rest := stacks[1..];
      StoreConserves(slots, stacks[0]);
      StoreAllConserves(r.0, rest);
      assert stacks == [stacks[0]] + rest;
      BagChain(Contents(StoreAll(r.0, rest)), Spilled(r.0, rest), SlotBag(r.1), Contents(r.0), Contents(slots),
               multiset{stacks[0]}, multiset(rest));
    }
  }

  lemma BagChain(a: multiset<ItemStack>, sp: multiset<ItemStack>, l: multiset<ItemStack>, c1: multiset<ItemStack>,
                 c0: multiset<ItemStack>, x: multiset<ItemStack>, rest: multiset<ItemStack>)
    requires a + sp == c1 + rest
    requires c1 + l == c0 + x
    ensures a + (l + sp) == c0 + (x + rest)
  {
    calc {
      a + (l + sp);
      (a + sp) + l;
      (c1 + rest) + l;
      (c1 + l) + rest;
      (c0 + x) + rest;
    }
  }

  /**
   * The farmer's move of slot `i` of `src` into `dst` (hut to worker, or
   * worker to hut): store the stack, then take from the source what was
   * stored.
   */
  function Transfer(src: seq<Slot>, i: int, dst: seq<Slot>): (res: (seq<Slot>, seq<Slot>))
    requires 0 <= i < |src| && src[i].Some?
    ensures |res.0| == |src| && |res.1| == |dst|
    ensures forall j :: 0 <= j < |src| && j != i ==> res.0[j] == src[j]
  {
    var stack := src[i].value;
    var r := Store(dst, stack);
    var taken := if r.1.None? then stack.size else stack.size - r.1.value.size;
    (Decr(src, i, taken), r.0)
  }

  /** Moving a stack of positive size loses and creates nothing: it is in one inventory or the other. */
  lemma TransferConserves(src: seq<Slot>, i: int, dst: seq<Slot>)
    requires 0 <= i < |src| && src[i].Some? && src[i].value.size > 0
    ensures var r := Transfer(src, i, dst); Contents(r.0) + Contents(r.1) == Contents(src) + Contents(dst)
    ensures var r := Transfer(src, i, dst); r.0[i].None? <==> FirstMatch(dst, EmptyQuery) >= 0
  {
    var stack := src[i].value;
    var k := FirstMatch(dst, EmptyQuery);
    if k >= 0 {
      TransferMoves(src, i, dst, k);
    } else {
      assert Decr(src, i, 0) == src;
    }
  }

  /** With an empty slot in the destination, the whole stack moves there. */
  lemma TransferMoves(src: seq<Slot>, i: int, dst: seq<Slot>, k: int)
    requires 0 <= i < |src| && src[i].Some?
    requires k == FirstMatch(dst, EmptyQuery) && k >= 0
    ensures Transfer(src, i, dst) == (src[i := None], dst[k := src[i]])
    ensures Contents(src[i := None]) + Contents(dst[k := src[i]]) == Contents(src) + Contents(dst)
  {
    MoveConserves(src, i, dst, k);
  }

  lemma MoveConserves(src: seq<Slot>, i: int, dst: seq<Slot>, k: int)
    requires 0 <= i < |src| && src[i].Some? && 0 <= k < |dst| && dst[k].None?
    ensures Contents(src[i := None]) + Contents(dst[k := src[i]]) == Contents(src) + Contents(dst)
  {
    ContentsUpdate(dst, k, src[i]);
    ContentsUpdate(src, i, None);
    assert SlotBag(None) == multiset{} && SlotBag(dst[k]) == multiset{};
    var moved := SlotBag(src[i]);
    assert Contents(src[i := None]) + moved == Contents(src);
    assert Contents(dst[k := src[i]]) == Contents(dst) + moved;
  }

  class World {
    var blocks: map<BlockPos, BlockState>

    constructor (blocks: map<BlockPos, BlockState>)
      ensures this.blocks == blocks
    {
      this.blocks := blocks;
    }

    function GetBlock(p: BlockPos): BlockState
      reads this
    {
      BlockAt(blocks, p)
    }

    /** setBlock, and setBlockToAir with `Air`: the block with metadata 0. */
    method SetBlock(p: BlockPos, b: Block)
      modifies this
      ensures blocks == old(blocks)[p := BlockState(b, 0)]
    {
      blocks := blocks[p := BlockState(b, 0)];
    }
  }

  class Inventory {
    var slots: seq<Slot>

    constructor (slots: seq<Slot>)
      ensures this.slots == slots
    {
      this.slots := slots;
    }

    function StackInSlot(i: int): Slot
      reads this
    {
      StackAt(slots, i)
    }

    method DecrStackSize(i: int, n: int)
      modifies this
      ensures slots == Decr(old(slots), i, n)
    {
      slots := Decr(slots, i, n);
    }

    method SetStack(stack: ItemStack) returns (leftover: Slot)
      modifies this
      ensures (slots, leftover) == Store(old(slots), stack)
    {
      var k := FindFirst(EmptyQuery);
      if k == -1 {
        leftover := Some(stack);
      } else {
        slots := slots[k := Some(stack)];
        leftover := None;
      }
    }

    /** setStack for each stack of a list, in order. */
    method SetStacks(stacks: seq<ItemStack>)
      modifies this
      ensures slots == StoreAll(old(slots), stacks)
    {
      var i := 0;
      while i < |stacks|
        invariant 0 <= i <= |stacks|
        invariant StoreAll(old(slots), stacks) == StoreAll(slots, stacks[i..])
      {
        assert stacks[i..][1..] == stacks[i + 1..];
        var _ := SetStack(stacks[i]);
        i := i + 1;
      }
    }

    /** A scan of the slots in order, stopping at the first match. */
    method FindFirst(q: SlotQuery) returns (slot: int)
      ensures slot == FirstMatch(slots, q)
      ensures slot == -1 <==> forall j :: 0 <= j < |slots| ==> !Matches(q, slots[j])
      ensures slot >= 0 ==> slot < |slots| && Matches(q, slots[slot]) && forall j :: 0 <= j < slot ==> !Matches(q, slots[j])
    {
      var i := 0;
      while i < |slots|
        invariant 0 <= i <= |slots|
        invariant forall j :: 0 <= j < i ==> !Matches(q, slots[j])
      {
        if Matches(q, slots[i]) {
          return i;
        }
        i := i + 1;
      }
      return -1;
    }

    /** A scan of every slot, adding up the sizes of the matching stacks. */
    method CountAll(q: SlotQuery) returns (count: int)
      ensures count == CountMatching(slots, q)
    {
      count := 0;
      var i := 0;
      while i < |slots|
        invariant 0 <= i <= |slots|
        invariant count == CountMatching(slots[..i], q)
      {
        assert slots[..i + 1][..i] == slots[..i];
        if slots[i].Some? && Matches(q, slots[i]) {
          count := count + slots[i].value.size;
        }
        i := i + 1;
      }
      assert slots[..i] == slots;
    }
  }

  /**
   * Moving slot `i` of one inventory into another: setStack on the
   * destination, then decrStackSize on the source by what was stored.
   */
  method TransferStack(src: Inventory, i: int, dst: Inventory)
    requires src != dst && 0 <= i < |src.slots| && src.slots[i].Some?
    modifies src, dst
    ensures (src.slots, dst.slots) == Transfer(old(src.slots), i, old(dst.slots))
  {
    var stack := src.slots[i].value;
    var rest := dst.SetStack(stack);
    if rest.None? {
      src.DecrStackSize(i, stack.size);
    } else {
      src.DecrStackSize(i, stack.size - rest.value.size);
    }
  }
}
