/** What an ItemHandlerLoot holds: its slots, the pending loot table and the seed. */
module LootState {
  import opened Wrappers
  import opened Nbt
  import opened SlotContainer

  /**
   * `lootTableLocation` is `None` when no table was set or loot was already
   * generated; a seed of 0 means "seed the random source freshly".
   */
  datatype State = State(stacks: SlotList, lootTableLocation: Option<string>, lootTableSeed: int64)
}
