/**
 * The NBT save record as a map from key to a tagged value. Only the tag
 * kinds the container reads or writes are present: strings, 32-bit ints,
 * 64-bit longs and the list of per-slot item records.
 */
module Nbt {
  import opened Items

  newtype int32 = x: int | -0x8000_0000 <= x < 0x8000_0000
  newtype int64 = x: int | -0x8000_0000_0000_0000 <= x < 0x8000_0000_0000_0000

  /** One element of the `Items` list: a slot index and the stack stored there. */
  datatype SlotEntry = SlotEntry(slot: int32, stack: ItemStack)

  datatype Tag =
    | StringTag(str: string)
    | IntTag(i: int32)
    | LongTag(l: int64)
    | ItemListTag(entries: seq<SlotEntry>)

  type Compound = map<string, Tag>

  /** `contains(key, TAG_STRING)`: the key is present and holds a string. */
  predicate HasString(c: Compound, key: string) {
    key in c && c[key].StringTag?
  }

  /** `contains(key, TAG_INT)`: the key is present and holds an int. */
  predicate HasInt(c: Compound, key: string) {
    key in c && c[key].IntTag?
  }

  /** `getLong(key)`: any numeric tag widened to a long, and 0 when the key is absent or not numeric. */
  function GetLong(c: Compound, key: string): (r: int64)
    ensures key !in c ==> r == 0
    ensures key in c && c[key].LongTag? ==> r == c[key].l
    ensures key in c && c[key].IntTag? ==> r as int == c[key].i as int
    ensures key in c && (c[key].StringTag? || c[key].ItemListTag?) ==> r == 0
  {
    if key !in c then 0 as int64
    else match c[key]
      case LongTag(l) => l
      case IntTag(i) => i as int64
      case _ => 0 as int64
  }

  /** `getList(key, TAG_COMPOUND)`: the list of item records, or the empty list. */
  function GetEntries(c: Compound, key: string): seq<SlotEntry> {
    if key in c && c[key].ItemListTag? then c[key].entries else []
  }
}
