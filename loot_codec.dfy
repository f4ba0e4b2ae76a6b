/**
 * Saving and loading an ItemHandlerLoot: a pending table is written in place
 * of the item list, and a record that names a table is loaded as pending
 * without reading any items.
 */
module LootCodec {
  import opened Wrappers
  import opened Nbt
  import opened SlotContainer
  import opened LootState

  const LootTableKey := "LootTable"
  const LootTableSeedKey := "LootTableSeed"

  /** The compound after `checkLootAndWrite`, and whether a table was written. */
  datatype Written = Written(written: bool, compound: Compound)

  /** `checkLootAndWrite`: adds the pending table, and the seed when it is nonzero. */
  function CheckLootAndWrite(c: Compound, location: Option<string>, seed: int64): (r: Written)
    ensures r.written <==> location.Some?
    ensures !r.written ==> r.compound == c
    ensures r.written ==> LootTableKey in r.compound && r.compound[LootTableKey] == StringTag(location.value)
    ensures r.written ==> (LootTableSeedKey in r.compound <==> seed != 0 || LootTableSeedKey in c)
    ensures r.written && seed != 0 ==> r.compound[LootTableSeedKey] == LongTag(seed)
    ensures r.written && seed == 0 && LootTableSeedKey in c ==> r.compound[LootTableSeedKey] == c[LootTableSeedKey]
    ensures forall k :: k in c && k != LootTableKey && k != LootTableSeedKey ==> k in r.compound && r.compound[k] == c[k]
    ensures forall k :: k in r.compound ==> k in c || k == LootTableKey || k == LootTableSeedKey
  {
    if location.Some? then
      var withTable := c[LootTableKey := StringTag(location.value)];
      Written(true, if seed != 0 then withTable[LootTableSeedKey := LongTag(seed)] else withTable)
    else
      Written(false, c)
  }

  /** A table and seed read back from a record. */
  datatype Pending = Pending(location: string, seed: int64)

  /** `checkLootAndRead`: the table and seed, if the record names a table as a string. */
  function CheckLootAndRead(c: Compound): (r: Option<Pending>)
    ensures r.Some? <==> HasString(c, LootTableKey)
    ensures r.Some? ==> r.value.location == c[LootTableKey].str
    ensures r.Some? && LootTableSeedKey !in c ==> r.value.seed == 0
    ensures r.Some? && LootTableSeedKey in c && c[LootTableSeedKey].LongTag? ==> r.value.seed == c[LootTableSeedKey].l
    ensures r.Some? && LootTableSeedKey in c && c[LootTableSeedKey].IntTag? ==> r.value.seed as int == c[LootTableSeedKey].i as int
    ensures r.Some? && LootTableSeedKey in c && !c[LootTableSeedKey].LongTag? && !c[LootTableSeedKey].IntTag? ==> r.value.seed == 0
  {
    if HasString(c, LootTableKey) then Some(Pending(c[LootTableKey].str, GetLong(c, LootTableSeedKey)))
    else None
  }

  /** `serializeNBT`: the base record, with the pending table written over it and `Items` removed. */
  function Serialize(s: State): (r: Compound)
    ensures LootTableKey in r <==> s.lootTableLocation.Some?
    ensures ItemsKey in r <==> s.lootTableLocation.None?
    ensures s.lootTableLocation.None? ==> r == BaseSerialize(s.stacks)
    ensures s.lootTableLocation.Some? ==> r[LootTableKey] == StringTag(s.lootTableLocation.value)
    ensures LootTableSeedKey in r <==> s.lootTableLocation.Some? && s.lootTableSeed != 0
    ensures LootTableSeedKey in r ==> r[LootTableSeedKey] == LongTag(s.lootTableSeed)
    ensures SizeKey in r && r[SizeKey] == IntTag(|s.stacks| as int32)
  {
    var w := CheckLootAndWrite(BaseSerialize(s.stacks), s.lootTableLocation, s.lootTableSeed);
    if w.written then w.compound - {ItemsKey} else w.compound
  }

  /** The state after a load, and whether the load threw. */
  datatype Loaded = Loaded(state: State, outcome: Outcome<Error>)

  /** `deserializeNBT`. A record naming a table makes the container pending and resizes
      it; any other record goes to the base handler and leaves table and seed as they were. */
  function Deserialize(s: State, nbt: Compound): (r: Loaded)
    ensures HasString(nbt, LootTableKey) ==>
      && r.state.lootTableLocation == Some(nbt[LootTableKey].str)
      && r.state.lootTableSeed == GetLong(nbt, LootTableSeedKey)
      && (r.outcome.Pass? <==> LoadedSize(nbt, s.stacks) >= 0)
      && (r.outcome.Pass? ==> r.state.stacks == EmptySlots(LoadedSize(nbt, s.stacks)))
      && (r.outcome.Fail? ==> r.state.stacks == s.stacks)
    ensures !HasString(nbt, LootTableKey) ==>
      && r.state.lootTableLocation == s.lootTableLocation
      && r.state.lootTableSeed == s.lootTableSeed
      && (r.outcome.Pass? <==> BaseDeserialize(nbt, s.stacks).Ok?)
      && (r.outcome.Pass? ==> r.state.stacks == BaseDeserialize(nbt, s.stacks).value)
      && (r.outcome.Fail? ==> r.state.stacks == s.stacks)
  {
    var read := CheckLootAndRead(nbt);
    if read.Some? then
      var p := read.value;
      var pending := s.(lootTableLocation := Some(p.location), lootTableSeed := p.seed);
      match SetSize(LoadedSize(nbt, s.stacks))
      case Err(e) => Loaded(pending, Fail(e))
      case Ok(slots) => Loaded(pending.(stacks := slots), Pass)
    else
      match BaseDeserialize(nbt, s.stacks)
      case Err(e) => Loaded(s, Fail(e))
      case Ok(slots) => Loaded(s.(stacks := slots), Pass)
  }

  /** A saved record never holds both the table and the items. */
  lemma SavedRecordIsExclusive(s: State)
    ensures !(LootTableKey in Serialize(s) && ItemsKey in Serialize(s))
    ensures LootTableKey in Serialize(s) || ItemsKey in Serialize(s)
  {
  }

  /** Writing a table into any record without a stale seed and reading it back gives
      the same table and seed; a zero seed is left out and read back as zero. */
  lemma WriteThenRead(c: Compound, location: string, seed: int64)
    requires LootTableSeedKey !in c
    ensures CheckLootAndRead(CheckLootAndWrite(c, Some(location), seed).compound) == Some(Pending(location, seed))
  {
  }

  /** Round trip of a pending container: the same table and seed come back, and the
      container has as many slots as before, all empty. */
  lemma PendingRoundTrip(s: State, before: State)
    requires s.lootTableLocation.Some?
    ensures Deserialize(before, Serialize(s))
         == Loaded(State(EmptySlots(|s.stacks|), s.lootTableLocation, s.lootTableSeed), Pass)
  {
  }

  /** Round trip of a generated container: the same stacks come back; the table and
      seed of the container loaded into are untouched. */
  lemma ItemsRoundTrip(s: State, before: State)
    requires s.lootTableLocation.None?
    ensures Deserialize(before, Serialize(s))
         == Loaded(State(s.stacks, before.lootTableLocation, before.lootTableSeed), Pass)
  {
    BaseRoundTrip(s.stacks, before.stacks);
  }

  /** Loading a record that names a table never reads `Items`: whatever `Items`
      holds, or whether it is there at all, the result is the same. */
  lemma LoadIgnoresItems(s: State, nbt: Compound, items: Tag)
    requires HasString(nbt, LootTableKey)
    ensures Deserialize(s, nbt[ItemsKey := items]) == Deserialize(s, nbt)
    ensures Deserialize(s, nbt - {ItemsKey}) == Deserialize(s, nbt)
  {
  }
}
