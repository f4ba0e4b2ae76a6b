/**
 * The base slot container that ItemHandlerLoot extends: a fixed-size list of
 * stacks with bounds-checked access, and its save format (the `Items` list of
 * non-empty slots and the `Size` int). The base handler's source is not part
 * of this model; this module is the minimal stand-in the loot container's
 * behaviour is stated against. How stacks merge on insert and split on
 * extract is left to the caller-supplied `StackRules`.
 */
module SlotContainer {
  import opened Wrappers
  import opened Items
  import opened Nbt

  const ItemsKey := "Items"
  const SizeKey := "Size"

  /** A Java list is indexed by `int`, so it never holds 2^31 or more slots. */
  type SlotList = s: seq<ItemStack> | |s| < 0x8000_0000

  /** The exceptions the container's operations can throw. */
  datatype Error =
    | SlotOutOfRange(slot: int, size: nat)  // the base handler's index check
    | NegativeSize(requested: int)            // a list of negative size
    | NoServer                              // the server null check of fillWithLoot

  /** `NonNullList.withSize(n, ItemStack.EMPTY)`. */
  function EmptySlots(n: nat): (r: seq<ItemStack>)
    ensures |r| == n
    ensures forall i :: 0 <= i < n ==> r[i] == Empty
  {
    seq(n, _ => Empty)
  }

  /** (stack in the slot, stack offered) -> (stack left in the slot, part not inserted) */
  type MergeRule = (ItemStack, ItemStack) -> (ItemStack, ItemStack)
  /** (stack in the slot, amount asked for) -> (stack left in the slot, part extracted) */
  type SplitRule = (ItemStack, int) -> (ItemStack, ItemStack)

  datatype StackRules = StackRules(merge: MergeRule, split: SplitRule)

  /** The four slot accessors of the item-handler interface. */
  datatype SlotOp =
    | GetStack(slot: int)
    | SetStack(slot: int, stack: ItemStack)
    | InsertItem(slot: int, stack: ItemStack, simulate: bool)
    | ExtractItem(slot: int, amount: int, simulate: bool)

  /** What an accessor returns: a stack, or nothing (`setStackInSlot` is `void`). */
  datatype Reply = Returned(stack: ItemStack) | Done

  datatype Applied = Applied(stacks: SlotList, reply: Reply)

  /** Whether the operation may change the slot it addresses. */
  predicate Mutates(op: SlotOp) {
    match op
    case GetStack(_) => false
    case SetStack(_, _) => true
    case InsertItem(_, _, simulate) => !simulate
    case ExtractItem(_, _, simulate) => !simulate
  }

  /** The base handler's accessors on a list of stacks. */
  function Apply(rules: StackRules, stacks: SlotList, op: SlotOp): (r: Result<Applied, Error>)
    ensures r.Err? <==> !(0 <= op.slot < |stacks|)
    ensures r.Err? ==> r.error == SlotOutOfRange(op.slot, |stacks|)
    ensures r.Ok? ==> |r.value.stacks| == |stacks|
    ensures r.Ok? ==> forall i :: 0 <= i < |stacks| && i != op.slot ==> r.value.stacks[i] == stacks[i]
    ensures r.Ok? && !Mutates(op) ==> r.value.stacks == stacks
    ensures r.Ok? && op.GetStack? ==> r.value.reply == Returned(stacks[op.slot])
    ensures r.Ok? && op.SetStack? ==> r.value.stacks[op.slot] == op.stack && r.value.reply == Done
  {
    if !(0 <= op.slot < |stacks|) then Err(SlotOutOfRange(op.slot, |stacks|))
    else
      var current := stacks[op.slot];
      match op
      case GetStack(_) => Ok(Applied(stacks, Returned(current)))
      case SetStack(slot, stack) => Ok(Applied(stacks[slot := stack], Done))
      case InsertItem(slot, stack, simulate) =>
        var (kept, remainder) := rules.merge(current, stack);
        Ok(Applied(if simulate then stacks else stacks[slot := kept], Returned(remainder)))
      case ExtractItem(slot, amount, simulate) =>
        var (kept, taken) := rules.split(current, amount);
        Ok(Applied(if simulate then stacks else stacks[slot := kept], Returned(taken)))
  }

  /** The `Items` records for slots `from..` that hold something, in slot order. */
  function Entries(stacks: SlotList, from: nat): (r: seq<SlotEntry>)
    requires from <= |stacks|
    decreases |stacks| - from
    ensures forall k :: 0 <= k < |r| ==>
      from <= r[k].slot as int < |stacks| && r[k].stack == stacks[r[k].slot] && r[k].stack != Empty
  {
    if from == |stacks| then []
    else if stacks[from] == Empty then Entries(stacks, from + 1)
    else [SlotEntry(from as int32, stacks[from])] + Entries(stacks, from + 1)
  }

  /** The base handler's save record: every non-empty slot, and the size. */
  function BaseSerialize(stacks: SlotList): (r: Compound)
    ensures r.Keys == {ItemsKey, SizeKey}
    ensures r[SizeKey] == IntTag(|stacks| as int32)
    ensures r[ItemsKey].ItemListTag?
  {
    map[ItemsKey := ItemListTag(Entries(stacks, 0)), SizeKey := IntTag(|stacks| as int32)]
  }

  /** Stores one record's stack, ignoring a record whose slot is out of range. */
  function PutEntry(slots: SlotList, e: SlotEntry): (r: SlotList)
    ensures |r| == |slots|
  {
    if 0 <= e.slot as int < |slots| then slots[e.slot := e.stack] else slots
  }

  function LoadEntries(slots: SlotList, es: seq<SlotEntry>): (r: SlotList)
    decreases |es|
    ensures |r| == |slots|
  {
    if es == [] then slots else LoadEntries(PutEntry(slots, es[0]), es[1..])
  }

  /** The size a load resizes to: the int `Size` tag if present, else the current size. */
  function LoadedSize(nbt: Compound, current: SlotList): (n: int)
    ensures n < 0x8000_0000
    ensures !HasInt(nbt, SizeKey) ==> n == |current|
  {
    if HasInt(nbt, SizeKey) then nbt[SizeKey].i as int else |current|
  }

  /** `setSize`: a fresh list of empty slots; a negative size throws. */
  function SetSize(size: int): (r: Result<SlotList, Error>)
    requires size < 0x8000_0000
    ensures r.Ok? <==> size >= 0
    ensures r.Ok? ==> r.value == EmptySlots(size)
  {
    if size < 0 then Err(NegativeSize(size)) else Ok(EmptySlots(size))
  }

  /** The base handler's load: resize (clearing every slot), then store each record. */
  function BaseDeserialize(nbt: Compound, stacks: SlotList): (r: Result<SlotList, Error>)
    ensures r.Ok? <==> LoadedSize(nbt, stacks) >= 0
    ensures r.Ok? ==> |r.value| == LoadedSize(nbt, stacks)
  {
    match SetSize(LoadedSize(nbt, stacks))
    case Err(e) => Err(e)
    case Ok(slots) => Ok(LoadEntries(slots, GetEntries(nbt, ItemsKey)))
  }

  /** Loading the records of slots `from..` into a list that already agrees below `from`
      and is empty from `from` on, gives back the original list. */
  lemma {:induction false} LoadEntriesRestores(stacks: SlotList, acc: SlotList, from: nat)
    requires from <= |stacks| == |acc|
    requires acc[..from] == stacks[..from]
    requires forall j :: from <= j < |acc| ==> acc[j] == Empty
    ensures LoadEntries(acc, Entries(stacks, from)) == stacks
    decreases |stacks| - from
  {
    if from == |stacks| {
      assert acc == acc[..from] && stacks == stacks[..from];
    } else if stacks[from] == Empty {
      assert acc[..from + 1] == stacks[..from + 1] by {
        assert acc[..from + 1] == acc[..from] + [acc[from]];
        assert stacks[..from + 1] == stacks[..from] + [stacks[from]];
      }
      LoadEntriesRestores(stacks, acc, from + 1);
    } else {
      var e := SlotEntry(from as int32, stacks[from]);
      var rest := Entries(stacks, from + 1);
      var next := PutEntry(acc, e);
      assert next == acc[from := stacks[from]];
      assert next[..from + 1] == stacks[..from + 1] by {
        assert next[..from + 1] == acc[..from] + [stacks[from]];
        assert stacks[..from + 1] == stacks[..from] + [stacks[from]];
      }
      LoadEntriesRestores(stacks, next, from + 1);
      assert ([e] + rest)[1..] == rest;
    }
  }

  /** Saving a list of stacks and loading the record back, into a container of any
      size, restores the list exactly. */
  lemma BaseRoundTrip(stacks: SlotList, before: SlotList)
    ensures BaseDeserialize(BaseSerialize(stacks), before) == Ok(stacks)
  {
    var nbt := BaseSerialize(stacks);
    assert LoadedSize(nbt, before) == |stacks|;
    var empty: SlotList := EmptySlots(|stacks|);
    assert empty[..0] == stacks[..0];
    LoadEntriesRestores(stacks, empty, 0);
  }
}
