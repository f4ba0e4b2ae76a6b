/**
 * ItemHandlerLoot as a class: an inventory that fills itself from a loot
 * table the first time it is accessed. Every method is proved to move the
 * object's state exactly as the functions of LootCodec and LootGeneration
 * say; the ghost `fillerLog` records each call of the loot filler.
 */
module LootHandler {
  import opened Wrappers
  import opened Items
  import opened Nbt
  import opened SlotContainer
  import opened LootState
  import LootCodec
  import opened LootGeneration

  /** An accessor's reply as `getStackInSlot`, `insertItem` and `extractItem` return it. */
  function AsStack(r: Result<Reply, Error>): Result<ItemStack, Error> {
    match r
    case Err(e) => Err(e)
    case Ok(reply) => Ok(if reply.Returned? then reply.stack else Empty)
  }

  /** An accessor's reply as `setStackInSlot` (a `void` method) returns it. */
  function AsOutcome(r: Result<Reply, Error>): Outcome<Error> {
    if r.Err? then Fail(r.error) else Pass
  }

  class ItemHandlerLoot {
    const world: World          // what `worldContainer.getContainedWorld()` gives
    const rules: StackRules     // the base handler's stack merging and splitting
    var stacks: SlotList
    var lootTableLocation: Option<string>
    var lootTableSeed: int64
    ghost var fillerLog: seq<Request>   // every call of the loot filler, in order
    ghost var loads: nat                // calls of `onLoad`

    function Abs(): State
      reads this
    {
      State(stacks, lootTableLocation, lootTableSeed)
    }

    /** 1 while a table is pending: lets the re-entrant calls below be proved to terminate. */
    function Rank(): nat
      reads this
    {
      if lootTableLocation.Some? then 1 else 0
    }

    /** `ItemHandlerLoot(size, defaultName, worldContainer)`. */
    constructor WithSize(size: nat, world: World, rules: StackRules)
      requires size < 0x8000_0000
      ensures this.world == world && this.rules == rules
      ensures Abs() == State(EmptySlots(size), None, 0)
      ensures fillerLog == [] && loads == 0
    {
      this.world := world;
      this.rules := rules;
      stacks := EmptySlots(size);
      lootTableLocation := None;
      lootTableSeed := 0;
      fillerLog := [];
      loads := 0;
    }

    /** `ItemHandlerLoot(stacks, defaultName, worldContainer)`. */
    constructor WithStacks(stacks: SlotList, world: World, rules: StackRules)
      ensures this.world == world && this.rules == rules
      ensures Abs() == State(stacks, None, 0)
      ensures fillerLog == [] && loads == 0
    {
      this.world := world;
      this.rules := rules;
      this.stacks := stacks;
      lootTableLocation := None;
      lootTableSeed := 0;
      fillerLog := [];
      loads := 0;
    }

    /** `checkLootAndWrite`: writes table and seed into the compound, reports whether it did. */
    method CheckLootAndWrite(compound: Compound) returns (written: bool, result: Compound)
      ensures LootCodec.Written(written, result) == LootCodec.CheckLootAndWrite(compound, lootTableLocation, lootTableSeed)
    {
      result := compound;
      if lootTableLocation.Some? {
        result := result[LootCodec.LootTableKey := StringTag(lootTableLocation.value)];
        if lootTableSeed != 0 {
          result := result[LootCodec.LootTableSeedKey := LongTag(lootTableSeed)];
        }
        written := true;
      } else {
        written := false;
      }
    }

    /** `checkLootAndRead`: takes table and seed from the compound if it names a table. */
    method CheckLootAndRead(compound: Compound) returns (read: bool)
      modifies this`lootTableLocation, this`lootTableSeed
      ensures read <==> HasString(compound, LootCodec.LootTableKey)
      ensures read ==> (lootTableLocation == Some(compound[LootCodec.LootTableKey].str)
                     && lootTableSeed == GetLong(compound, LootCodec.LootTableSeedKey))
      ensures !read ==> lootTableLocation == old(lootTableLocation) && lootTableSeed == old(lootTableSeed)
    {
      if HasString(compound, LootCodec.LootTableKey) {
        lootTableLocation := Some(compound[LootCodec.LootTableKey].str);
        lootTableSeed := GetLong(compound, LootCodec.LootTableSeedKey);
        read := true;
      } else {
        read := false;
      }
    }

    /** `serializeNBT`: the base record, with `Items` removed when a table was written. */
    method SerializeNBT() returns (tag: Compound)
      ensures tag == LootCodec.Serialize(Abs())
    {
      tag := BaseSerialize(stacks);
      var written;
      written, tag := CheckLootAndWrite(tag);
      if written {
        tag := tag - {ItemsKey};
      }
    }

    /** `setSize`: replaces the slots by as many empty ones; a negative size throws. */
    method SetSize(size: int) returns (r: Outcome<Error>)
      requires size < 0x8000_0000
      modifies this`stacks
      ensures SlotContainer.SetSize(size).Ok? ==> r == Pass && stacks == SlotContainer.SetSize(size).value
      ensures SlotContainer.SetSize(size).Err? ==> r == Fail(SlotContainer.SetSize(size).error) && stacks == old(stacks)
    {
      if size < 0 {
        return Fail(NegativeSize(size));
      }
      stacks := EmptySlots(size);
      r := Pass;
    }

    /** The base handler's load. */
    method BaseDeserializeNBT(nbt: Compound) returns (r: Outcome<Error>)
      modifies this`stacks, this`loads
      ensures var b := BaseDeserialize(nbt, old(stacks));
        (b.Ok? ==> r == Pass && stacks == b.value && loads == old(loads) + 1)
        && (b.Err? ==> r == Fail(b.error) && stacks == old(stacks) && loads == old(loads))
    {
      r := SetSize(LoadedSize(nbt, stacks));
      if r.Pass? {
        stacks := LoadEntries(stacks, GetEntries(nbt, ItemsKey));
        loads := loads + 1;
      }
    }

    /** `deserializeNBT`. */
    method DeserializeNBT(nbt: Compound) returns (r: Outcome<Error>)
      modifies this`stacks, this`lootTableLocation, this`lootTableSeed, this`loads
      ensures var l := LootCodec.Deserialize(old(Abs()), nbt);
        Abs() == l.state && r == l.outcome
      ensures loads == old(loads) + (if r.Pass? then 1 else 0)
    {
      var read := CheckLootAndRead(nbt);
      if read {
        r := SetSize(LoadedSize(nbt, stacks));
        if r.Pass? {
          loads := loads + 1;   // onLoad()
        }
      } else {
        r := BaseDeserializeNBT(nbt);
      }
    }

    /** `fillWithLoot(player)`. */
    method FillWithLoot(player: Option<Player>) returns (r: Outcome<Error>)
      modifies this`stacks, this`lootTableLocation, this`fillerLog
      decreases Rank(), 0
      ensures var g := LootGeneration.FillWithLoot(world, old(Abs()), player);
        Abs() == g.state && r == g.outcome && fillerLog == old(fillerLog) + Log(g.request)
    {
      if lootTableLocation.Some? && !world.isRemote {
        if !world.hasServer {
          return Fail(NoServer);   // Preconditions.checkNotNull(world.getServer())
        }
        var lootTable := world.resolve(lootTableLocation.value);
        lootTableLocation := None;
        var random := if lootTableSeed == 0 then Unseeded else Seeded(lootTableSeed);
        var context := if player.Some? then LootContext(Some(player.value.luck)) else LootContext(None);
        r := FillHandlerWithLoot(lootTable, random, context);
      } else {
        r := Pass;
      }
    }

    /**
     * The loot filler. It reads every slot and writes every placement through this
     * container's own accessors; those re-entrant calls find no table pending, so
     * their `fillWithLoot(null)` preambles do nothing.
     */
    method FillHandlerWithLoot(table: LootTable, random: RandomSource, context: LootContext) returns (r: Outcome<Error>)
      requires lootTableLocation.None?
      modifies this`stacks, this`lootTableLocation, this`fillerLog
      decreases Rank(), 2
      ensures lootTableLocation.None?
      ensures var p := PlaceAll(old(stacks), world.filler(table, random, context, old(stacks)));
        stacks == p.stacks && r == p.outcome
      ensures fillerLog == old(fillerLog) + [Request(table, random, context)]
    {
      fillerLog := fillerLog + [Request(table, random, context)];
      var view: seq<ItemStack> := [];
      var i := 0;
      while i < |stacks|
        invariant 0 <= i <= |stacks|
        invariant stacks == old(stacks) && lootTableLocation.None?
        invariant view == stacks[..i]
        invariant fillerLog == old(fillerLog) + [Request(table, random, context)]
        decreases |stacks| - i
      {
        var got := GetStackInSlot(i);
        view := view + [got.value];
        i := i + 1;
      }
      assert view == old(stacks);
      var placements := world.filler(table, random, context, view);
      var j := 0;
      while j < |placements|
        invariant 0 <= j <= |placements| && lootTableLocation.None?
        invariant PlaceAll(stacks, placements[j..]) == PlaceAll(old(stacks), placements)
        invariant fillerLog == old(fillerLog) + [Request(table, random, context)]
        decreases |placements| - j
      {
        assert placements[j..][1..] == placements[j + 1..];
        var stored := SetStackInSlot(placements[j].slot, placements[j].stack);
        if stored.Fail? {
          return stored;
        }
        j := j + 1;
      }
      r := Pass;
    }

    /** `getStackInSlot`. */
    method GetStackInSlot(slot: int) returns (r: Result<ItemStack, Error>)
      modifies this`stacks, this`lootTableLocation, this`fillerLog
      decreases Rank(), 1
      ensures var a := Access(world, rules, old(Abs()), GetStack(slot));
        Abs() == a.state && r == AsStack(a.reply) && fillerLog == old(fillerLog) + Log(a.request)
    {
      var filled := FillWithLoot(None);
      if filled.Fail? {
        return Err(filled.error);
      }
      var got := Apply(rules, stacks, GetStack(slot));
      if got.Err? {
        return Err(got.error);
      }
      r := Ok(got.value.reply.stack);
    }

    /** `insertItem`. */
    method InsertItem(slot: int, stack: ItemStack, simulate: bool) returns (r: Result<ItemStack, Error>)
      modifies this`stacks, this`lootTableLocation, this`fillerLog
      decreases Rank(), 1
      ensures var a := Access(world, rules, old(Abs()), SlotOp.InsertItem(slot, stack, simulate));
        Abs() == a.state && r == AsStack(a.reply) && fillerLog == old(fillerLog) + Log(a.request)
    {
      var filled := FillWithLoot(None);
      if filled.Fail? {
        return Err(filled.error);
      }
      var inserted := Apply(rules, stacks, SlotOp.InsertItem(slot, stack, simulate));
      if inserted.Err? {
        return Err(inserted.error);
      }
      stacks := inserted.value.stacks;
      r := Ok(inserted.value.reply.stack);
    }

    /** `extractItem`. */
    method ExtractItem(slot: int, amount: int, simulate: bool) returns (r: Result<ItemStack, Error>)
      modifies this`stacks, this`lootTableLocation, this`fillerLog
      decreases Rank(), 1
      ensures var a := Access(world, rules, old(Abs()), SlotOp.ExtractItem(slot, amount, simulate));
        Abs() == a.state && r == AsStack(a.reply) && fillerLog == old(fillerLog) + Log(a.request)
    {
      var filled := FillWithLoot(None);
      if filled.Fail? {
        return Err(filled.error);
      }
      var extracted := Apply(rules, stacks, SlotOp.ExtractItem(slot, amount, simulate));
      if extracted.Err? {
        return Err(extracted.error);
      }
      stacks := extracted.value.stacks;
      r := Ok(extracted.value.reply.stack);
    }

    /** `setStackInSlot`. */
    method SetStackInSlot(slot: int, stack: ItemStack) returns (r: Outcome<Error>)
      modifies this`stacks, this`lootTableLocation, this`fillerLog
      decreases Rank(), 1
      ensures var a := Access(world, rules, old(Abs()), SetStack(slot, stack));
        Abs() == a.state && r == AsOutcome(a.reply) && fillerLog == old(fillerLog) + Log(a.request)
    {
      var filled := FillWithLoot(None);
      if filled.Fail? {
        return filled;
      }
      var written := Apply(rules, stacks, SetStack(slot, stack));
      if written.Err? {
        return Fail(written.error);
      }
      stacks := written.value.stacks;
      r := Pass;
    }

    /** `getLootTable`: the pending id; a function, so it cannot trigger generation. */
    function GetLootTable(): (r: Option<string>)
      reads this
      ensures r == Abs().lootTableLocation
    {
      lootTableLocation
    }
  }

  /** Two accessor calls in a row call the loot filler at most once, and never on the
      client side. */
  method AccessTwice(h: ItemHandlerLoot, slot: int, stack: ItemStack)
    modifies h
    ensures |h.fillerLog| <= |old(h.fillerLog)| + 1
    ensures h.world.isRemote ==> h.fillerLog == old(h.fillerLog)
    ensures old(h.lootTableLocation).Some? && !h.world.isRemote && h.world.hasServer ==>
      |h.fillerLog| == |old(h.fillerLog)| + 1 && h.lootTableLocation.None?
  {
    var got := h.GetStackInSlot(slot);
    var inserted := h.InsertItem(slot, stack, false);
  }
}
