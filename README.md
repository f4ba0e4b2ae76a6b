# Loot-backed item handler, modelled in Dafny

This project models `ItemHandlerLoot` from TestMod3. It also models the
name derivation and the one-shot initialise guard of `ModPotions`.

`ItemHandlerLoot` is a fixed-size slot inventory. It can hold a pending loot
table id and a 64-bit seed instead of explicit contents:

- While a table is pending, every slot accessor first runs `fillWithLoot(null)`.
- On the server side, `fillWithLoot` resolves the table and clears the pending id.
  Only then does it call the loot filler. The id is cleared first, so the
  filler's own calls back into the accessors find nothing pending. Generation
  therefore happens at most once.
- Saving a pending container writes `LootTable`, and `LootTableSeed` only when
  the seed is nonzero. It removes `Items`.
- Loading a record that has a string `LootTable` makes the container pending
  again and resizes it. It never reads `Items`. Any other record goes to the
  base handler.

Files:

- `wrappers.dfy`: `Option`, `Result` and `Outcome`. These stand for Java's
  `null` and for thrown exceptions.
- `items.dfy`: abstract item stacks.
- `nbt.dfy`: the save record, a map from key to a tagged value (string, int,
  long, item list). The int and long tags are 32-bit and 64-bit integers.
- `slot_container.dfy`: the base handler that `ItemHandlerLoot` extends. Slot
  access is bounds-checked. Its save format is the `Items` list plus `Size`.
- `loot_state.dfy`: the container's state as a value.
- `loot_codec.dfy`: `checkLootAndWrite`, `checkLootAndRead`, saving and loading
  as functions, and their round-trip and exclusion lemmas.
- `loot_generation.dfy`: `fillWithLoot` and the four accessors as functions of
  the state. It also has `Run` over any sequence of calls, and the
  at-most-once, client-side and no-luck lemmas.
- `item_handler_loot.dfy`: the class `ItemHandlerLoot`. Its fields are
  `stacks`, `lootTableLocation` and `lootTableSeed`. Each method is proved to
  change the state exactly as the functions above say. The loot filler is a
  method that reads and writes slots through the container's own accessors, so
  the re-entrant calls are part of the proof. The ghost `fillerLog` records
  every filler call.
- `mod_potions.dfy`: registry and base names as functions. The static state is
  a class with the `initialise` guard.

Foreign code is supplied as parameters. The `World` value carries
`world.isRemote`, whether `world.getServer()` is non-null, the loot table
manager (`resolve`) and the loot filler (`filler`). `StackRules` says how the
base handler merges stacks on insert and splits them on extract. TestMod3's
mod id is a constructor parameter of `ModPotions.Potions`.

Two points of the code's order and scope that the model keeps as written:

- The table is resolved (`ItemHandlerLoot.java:132`) before the pending id is
  cleared (`:133`), not after. The null-server check (`:131`) throws before
  anything changes, so that failure leaves the table pending.
- Loading a record without a string `LootTable` does not clear a pending table
  (`:116-118`). It keeps `lootTableLocation` and `lootTableSeed`. This is stated
  in `LootCodec.Deserialize` and `LootCodec.ItemsRoundTrip`.

## Model

| member | source | states |
|---|---|---|
| `LootCodec.CheckLootAndWrite` | src/main/java/choonster/testmod3/inventory/itemhandler/ItemHandlerLoot.java:70-82 | Returns true exactly when a table is pending. If so, writes `LootTable`, and writes `LootTableSeed` only for a nonzero seed. Changes no other key. With nothing pending the compound is unchanged. |
| `LootCodec.CheckLootAndRead` | src/main/java/choonster/testmod3/inventory/itemhandler/ItemHandlerLoot.java:90-98 | Reads a table exactly when `LootTable` holds a string. The seed is the `LootTableSeed` long, and 0 when that key is missing. |
| `LootCodec.Serialize` | src/main/java/choonster/testmod3/inventory/itemhandler/ItemHandlerLoot.java:101-109 | `LootTable` is present iff a table is pending. `Items` is present iff none is. `LootTableSeed` is present iff pending with a nonzero seed. With nothing pending the base record is returned unchanged. |
| `LootCodec.Deserialize` | src/main/java/choonster/testmod3/inventory/itemhandler/ItemHandlerLoot.java:111-119 | A string `LootTable` sets table and seed. The container is resized to the int `Size`, or else keeps its current size, with all slots cleared. A negative size throws after table and seed are set. Any other record is the base load, with table and seed untouched. |
| `LootCodec.SavedRecordIsExclusive` | src/main/java/choonster/testmod3/inventory/itemhandler/ItemHandlerLoot.java:101-109 | A saved record holds exactly one of `LootTable` and `Items`. |
| `LootCodec.WriteThenRead` | src/main/java/choonster/testmod3/inventory/itemhandler/ItemHandlerLoot.java:70-98 | Writing a table and seed into any record without a stale seed and reading it back gives the same table and seed. This includes seed 0, which is omitted. |
| `LootCodec.PendingRoundTrip` | src/main/java/choonster/testmod3/inventory/itemhandler/ItemHandlerLoot.java:70-119 | Saving a pending container and loading the record into any container restores the table, the seed and the slot count, with every slot empty. |
| `LootCodec.ItemsRoundTrip` | src/main/java/choonster/testmod3/inventory/itemhandler/ItemHandlerLoot.java:101-119 | Saving a generated container and loading the record restores its stacks exactly. The loading container's table and seed stay as they were. |
| `LootCodec.LoadIgnoresItems` | src/main/java/choonster/testmod3/inventory/itemhandler/ItemHandlerLoot.java:111-115 | When the record names a table, the load has the same result whatever `Items` holds, or without `Items`. |
| `SlotContainer.Apply` | src/main/java/choonster/testmod3/inventory/itemhandler/ItemHandlerLoot.java:147-169 | The base operations the accessors delegate to. An out-of-range slot throws. Only the addressed slot changes. A get or a simulated insert/extract changes nothing. A get returns the slot, and a set stores the stack. |
| `SlotContainer.BaseRoundTrip` | src/main/java/choonster/testmod3/inventory/itemhandler/ItemHandlerLoot.java:102-117 | For the base-handler stand-in, saving a list of stacks and loading it back into a container of any size restores the list. |
| `LootGeneration.RandomFor` | src/main/java/choonster/testmod3/inventory/itemhandler/ItemHandlerLoot.java:135 | The random source is unseeded exactly when the stored seed is 0. Otherwise it is seeded with that seed. |
| `LootGeneration.ContextFor` | src/main/java/choonster/testmod3/inventory/itemhandler/ItemHandlerLoot.java:137-141 | The loot context carries luck exactly when a player is given, and it is that player's luck. |
| `LootGeneration.PlaceAll` | src/main/java/choonster/testmod3/inventory/itemhandler/ItemHandlerLoot.java:143 | Stores the filler's placements in order. Every placement lands only if all slots are in range. Slots no placement names are unchanged. When all succeed, each slot holds the last stack placed there. |
| `LootGeneration.FillWithLoot` | src/main/java/choonster/testmod3/inventory/itemhandler/ItemHandlerLoot.java:128-145 | The filler is called exactly when a table is pending, the side is not remote and there is a server. Otherwise the state is unchanged, and a missing server throws. After a call the table is cleared. The request has the resolved table, `RandomFor(seed)` and `ContextFor(player)`. The filler sees the slots as they were. The seed never changes. |
| `LootGeneration.Access` | src/main/java/choonster/testmod3/inventory/itemhandler/ItemHandlerLoot.java:147-169 | Each accessor is `fillWithLoot(null)` followed by the base operation on the slots that leaves. When generation runs, the request is the fill's own, and it carries no luck. A failed fill is rethrown with the fill's state. Otherwise the base operation acts on the generated slots and its reply is returned. When nothing is due it is exactly the base operation. A missing server makes it throw and change nothing. |
| `LootGeneration.FirstGetSeesLoot` | src/main/java/choonster/testmod3/inventory/itemhandler/ItemHandlerLoot.java:25-151 | The first get on a container whose loot is due, with a server, returns the slot as the filler's placements left it, when they all land. It leaves the container holding that loot with nothing pending, after one request with the resolved table, the seed's random source and no luck. |
| `LootGeneration.FillTwiceFillsOnce` | src/main/java/choonster/testmod3/inventory/itemhandler/ItemHandlerLoot.java:128-145 | A second `fillWithLoot`, with any player, never calls the filler. |
| `LootGeneration.Step` | src/main/java/choonster/testmod3/inventory/itemhandler/ItemHandlerLoot.java:128-169 | A public call generates only when due with a server, and then leaves nothing pending. Otherwise the pending id is unchanged. The seed never changes. |
| `LootGeneration.NothingPendingNeverGenerates` | src/main/java/choonster/testmod3/inventory/itemhandler/ItemHandlerLoot.java:130-133 | With no table pending, no sequence of calls calls the filler or makes a table pending. |
| `LootGeneration.GeneratesAtMostOnce` | src/main/java/choonster/testmod3/inventory/itemhandler/ItemHandlerLoot.java:128-169 | Any sequence of accessor and `fillWithLoot` calls calls the filler at most once. |
| `LootGeneration.GeneratesOnceWhenDue` | src/main/java/choonster/testmod3/inventory/itemhandler/ItemHandlerLoot.java:128-169 | When generation is due with a server, any non-empty sequence of calls calls the filler exactly once, with the stored seed's random source, and leaves nothing pending. |
| `LootGeneration.RemoteNeverGenerates` | src/main/java/choonster/testmod3/inventory/itemhandler/ItemHandlerLoot.java:130 | On the remote side no sequence of calls calls the filler, and the pending id stays. |
| `LootGeneration.AccessorsNeverSupplyLuck` | src/main/java/choonster/testmod3/inventory/itemhandler/ItemHandlerLoot.java:139-169 | A generation reached only through the four accessors never gets luck. |
| `LootHandler.ItemHandlerLoot.WithSize` | src/main/java/choonster/testmod3/inventory/itemhandler/ItemHandlerLoot.java:54-57 | A new container has `size` empty slots, no table and seed 0. |
| `LootHandler.ItemHandlerLoot.WithStacks` | src/main/java/choonster/testmod3/inventory/itemhandler/ItemHandlerLoot.java:59-62 | A new container holds the given stacks, no table and seed 0. |
| `LootHandler.ItemHandlerLoot.CheckLootAndWrite` | src/main/java/choonster/testmod3/inventory/itemhandler/ItemHandlerLoot.java:70-82 | The in-place write computes what `LootCodec.CheckLootAndWrite` describes for the object's table and seed. |
| `LootHandler.ItemHandlerLoot.CheckLootAndRead` | src/main/java/choonster/testmod3/inventory/itemhandler/ItemHandlerLoot.java:90-98 | Returns true iff `LootTable` holds a string. If so it assigns the table and the `getLong` seed. Otherwise both fields are unchanged. |
| `LootHandler.ItemHandlerLoot.SerializeNBT` | src/main/java/choonster/testmod3/inventory/itemhandler/ItemHandlerLoot.java:100-109 | Returns `LootCodec.Serialize` of the object's state and changes nothing. |
| `LootHandler.ItemHandlerLoot.SetSize` | src/main/java/choonster/testmod3/inventory/itemhandler/ItemHandlerLoot.java:114 | Replaces the slots by `size` empty ones. A negative size throws and changes nothing. |
| `LootHandler.ItemHandlerLoot.BaseDeserializeNBT` | src/main/java/choonster/testmod3/inventory/itemhandler/ItemHandlerLoot.java:116-118 | The delegated base load. It moves the slots as `BaseDeserialize` says and calls `onLoad` once when it succeeds. |
| `LootHandler.ItemHandlerLoot.DeserializeNBT` | src/main/java/choonster/testmod3/inventory/itemhandler/ItemHandlerLoot.java:111-119 | The new state and the thrown error are those of `LootCodec.Deserialize`. `onLoad` runs once exactly when the load succeeds. |
| `LootHandler.ItemHandlerLoot.FillWithLoot` | src/main/java/choonster/testmod3/inventory/itemhandler/ItemHandlerLoot.java:128-145 | The new state and result are those of `LootGeneration.FillWithLoot`. The filler log grows by that function's request, or not at all. This holds even though the filler calls back into the accessors. |
| `LootHandler.ItemHandlerLoot.FillHandlerWithLoot` | src/main/java/choonster/testmod3/inventory/itemhandler/ItemHandlerLoot.java:143 | The filler reads every slot and stores its placements through the accessors while nothing is pending. It is logged once, the table stays cleared, and the slots become `PlaceAll` of its placements. |
| `LootHandler.ItemHandlerLoot.GetStackInSlot` | src/main/java/choonster/testmod3/inventory/itemhandler/ItemHandlerLoot.java:147-151 | State, result and filler log are those of `LootGeneration.Access` for a get. |
| `LootHandler.ItemHandlerLoot.InsertItem` | src/main/java/choonster/testmod3/inventory/itemhandler/ItemHandlerLoot.java:153-157 | State, result and filler log are those of `LootGeneration.Access` for an insert. |
| `LootHandler.ItemHandlerLoot.ExtractItem` | src/main/java/choonster/testmod3/inventory/itemhandler/ItemHandlerLoot.java:159-163 | State, result and filler log are those of `LootGeneration.Access` for an extract. |
| `LootHandler.ItemHandlerLoot.SetStackInSlot` | src/main/java/choonster/testmod3/inventory/itemhandler/ItemHandlerLoot.java:165-169 | State, outcome and filler log are those of `LootGeneration.Access` for a set. |
| `LootHandler.ItemHandlerLoot.GetLootTable` | src/main/java/choonster/testmod3/inventory/itemhandler/ItemHandlerLoot.java:171-175 | Returns the pending id of the current state. It is a `reads this` function, so it cannot change state or trigger generation. |
| `LootHandler.AccessTwice` | src/main/java/choonster/testmod3/inventory/itemhandler/ItemHandlerLoot.java:147-157 | Two accessor calls in a row call the filler at most once, and never on the remote side. When due with a server they call it exactly once and leave nothing pending. |
| `ModPotions.FullName` | src/main/java/choonster/testmod3/init/ModPotions.java:91 | The registry name is the name when there is no prefix. Otherwise it starts with the prefix, ends with the name, and has exactly their combined length. |
| `ModPotions.Replace` | src/main/java/choonster/testmod3/init/ModPotions.java:95 | Same length, and each character equal to `from` becomes `to`. Every other character is kept. |
| `ModPotions.BaseName` | src/main/java/choonster/testmod3/init/ModPotions.java:94-95 | The mod id, a `.`, then the name with each `/` made `.`. Contains no `/` when the mod id has none. |
| `ModPotions.BaseNameCollapsesSlashes` | src/main/java/choonster/testmod3/init/ModPotions.java:95 | A name and the same name with `/` made `.` get the same base name. |
| `ModPotions.TestPotionNames` | src/main/java/choonster/testmod3/init/ModPotions.java:25-48 | The three potions register as `test`, `long_test` and `strong_test`, and their base name is `<modid>.test`. |
| `ModPotions.Potions.constructor` | src/main/java/choonster/testmod3/init/ModPotions.java:21-48 | The static initialiser registers TEST, LONG_TEST and STRONG_TEST in order, with their names, one shared base name, durations 3600/9600/1800 and amplifiers 0/0/1. It is not yet initialised. |
| `ModPotions.Potions.RegisterPotion` | src/main/java/choonster/testmod3/init/ModPotions.java:76-99 | Appends one entry: `FullName(name, prefix)`, `BaseName(modId, name)` and the effect's duration and amplifier. |
| `ModPotions.Potions.Initialise` | src/main/java/choonster/testmod3/init/ModPotions.java:57-65 | The first call registers with the event bus once and sets `isInitialised`. A later call throws `AlreadyInitialised` and registers nothing. |
| `ModPotions.InitialiseTwice` | src/main/java/choonster/testmod3/init/ModPotions.java:57-65 | Initialising twice succeeds and then throws, with exactly one bus registration and the entries unchanged. |

## Left out

- ItemStackHandler and ItemHandlerNameable are not part of this model. `SlotContainer` is a stand-in for them:
  - save writes `Items` (the non-empty slots with their index) and `Size`;
  - load resizes to `Size` (or keeps the current size), clears the slots, stores the in-range records and calls `onLoad`.

  The real layout may differ, for example a custom-name tag. These members rest on the stand-in:
  - `SlotContainer.BaseRoundTrip`, and `LootCodec.ItemsRoundTrip`.
  - `LootCodec.PendingRoundTrip`. The slot count comes back only because the stand-in writes `Size`.
  - The second `ensures` of `LootCodec.SavedRecordIsExclusive`, which needs the stand-in's `Items` key.
  - `LootCodec.Serialize`. Its `Items` and `Size` clauses, and its `LootTable`/`LootTableSeed` presence clauses, assume the base record holds only `Items` and `Size`.
  - The base branch of `LootCodec.Deserialize`, and `LootHandler.ItemHandlerLoot.BaseDeserializeNBT`.
- The display name (`defaultName`) and the constructor without a size or stacks argument (`ItemHandlerLoot.java:49-52`) are left out. That constructor's default size belongs to the base handler.
- Stack merging on insert and splitting on extract belong to the base handler. `StackRules` supplies them from outside.
- InventoryUtils.fillItemHandlerWithLoot is not part of this model. It is modelled as a filler that reads every slot through `getStackInSlot`, gets a list of placements from the `filler` oracle, and stores each one through `setStackInSlot`. Its shuffling and choice of slots belong to the oracle.
- `LootTableManager.getLootTableFromLocation` is the total `resolve` oracle. A failure inside it is not modelled. If such a failure threw, it would happen before the pending id is cleared.
- `new Random()` takes its seed from the clock. The model passes only the tag `Unseeded`, so runs with a zero seed are not told apart.
- Determinism for equal nonzero seeds has no lemma of its own. It follows because `FillWithLoot` is a function of its inputs and `RandomFor` passes the seed unchanged.
- `ResourceLocation` parsing, validation and namespace defaulting (`ItemHandlerLoot.java:92`) are left out. The table id is an opaque string, so a malformed id is not a load failure in the model.
- A non-remote world is assumed to be a server world. The `(WorldServer) world` cast (`ItemHandlerLoot.java:137`) runs after the id is cleared, and a failing cast would lose the table with no fill. That failure is not modelled.
- `getContainedWorld()` is read at each call in the source. The model fixes the world when the container is constructed.
- Player luck is a float in the source and a `real` in the model.
- LootHandler.ItemHandlerLoot.WithSize: a negative size, which makes the base constructor throw, is excluded by the parameter type `nat`.
- Only string, int, long and item-list tags exist. `getLong` on other numeric tag kinds (byte, short, float, double) is not modelled.
- ModPotions:
  - `DeferredRegister`, `RegistryObject`, the event bus and the construction of `Potion` and `EffectInstance` objects are reduced to the entry list and a counter.
  - The base name is computed when the potion is registered in the model, not lazily in the supplier.
  - The effect (`ModEffects.TEST`) is not part of this model.
  - TestMod3.MODID is a constructor parameter.
  - The harmful-duration constants are declared but unused, as in the source.
- ClientEventHandler.java is client-only rendering code over float FOV arithmetic.
- MaxHealthGetterItem.java and BlockDebuggerItem.java only send chat and log messages.
- IItemHandlerNameable.java is an empty interface.
- Concurrency is not modelled. The source assumes a single simulation thread.
