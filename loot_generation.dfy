/**
 * Loot generation as a function of the container's state: when it is due,
 * what request reaches the loot filler, and what every slot accessor does
 * once its `fillWithLoot(null)` preamble has run. The class in
 * item_handler_loot.dfy is proved to behave as these functions say.
 */
module LootGeneration {
  import opened Wrappers
  import opened Items
  import opened Nbt
  import opened SlotContainer
  import opened LootState

  /** The player whose luck a generation uses; only the luck matters here. */
  datatype Player = Player(luck: real)

  /** An opaque handle the loot table manager returns for a table id. */
  datatype LootTable = ResolvedTable(handle: int)

  /** `new Random()` or `new Random(seed)`. */
  datatype RandomSource = Unseeded | Seeded(seed: int64)

  /** The loot context; luck is absent unless `withLuck` was called. */
  datatype LootContext = LootContext(luck: Option<real>)

  /** The filler puts `stack` into slot `slot`. */
  datatype Placement = Placement(slot: int, stack: ItemStack)

  /** What the loot filler decides, given the table, the random source, the context
      and the slots as it reads them. */
  type LootFiller = (LootTable, RandomSource, LootContext, seq<ItemStack>) -> seq<Placement>

  /** The world the container lives in, and the foreign code it calls. */
  datatype World = World(
    isRemote: bool,                 // `world.isRemote`
    hasServer: bool,                // `world.getServer() != null`
    resolve: string -> LootTable,   // the loot table manager
    filler: LootFiller)             // the loot filler

  /** One call of the loot filler, with the arguments it received. */
  datatype Request = Request(table: LootTable, random: RandomSource, context: LootContext)

  function Log(r: Option<Request>): seq<Request> {
    if r.Some? then [r.value] else []
  }

  /** The random source: a zero seed stands for "no stored seed". */
  function RandomFor(seed: int64): (r: RandomSource)
    ensures r.Unseeded? <==> seed == 0
    ensures r.Seeded? ==> r.seed == seed
  {
    if seed == 0 then Unseeded else Seeded(seed)
  }

  /** The loot context: luck only when a player is given. */
  function ContextFor(player: Option<Player>): (c: LootContext)
    ensures c.luck.Some? <==> player.Some?
    ensures player.Some? ==> c.luck.value == player.value.luck
  {
    if player.Some? then LootContext(Some(player.value.luck)) else LootContext(None)
  }

  /** The slots after the filler's placements, each stored through `setStackInSlot`;
      the first out-of-range placement throws and stops the rest. */
  datatype Placed = Placed(stacks: SlotList, outcome: Outcome<Error>)

  function PlaceAll(stacks: SlotList, ps: seq<Placement>): (r: Placed)
    decreases |ps|
    ensures |r.stacks| == |stacks|
    ensures r.outcome.Pass? <==> forall k :: 0 <= k < |ps| ==> 0 <= ps[k].slot < |stacks|
    ensures forall i :: 0 <= i < |stacks| && (forall k :: 0 <= k < |ps| ==> ps[k].slot != i) ==>
      r.stacks[i] == stacks[i]
    ensures r.outcome.Pass? ==> forall k :: 0 <= k < |ps| && (forall m :: k < m < |ps| ==> ps[m].slot != ps[k].slot) ==>
      r.stacks[ps[k].slot] == ps[k].stack
  {
    if ps == [] then Placed(stacks, Pass)
    else if 0 <= ps[0].slot < |stacks| then
      var rest := PlaceAll(stacks[ps[0].slot := ps[0].stack], ps[1..]);
      assert forall k :: 1 <= k < |ps| ==> ps[k] == ps[1..][k - 1];
      rest
    else
      Placed(stacks, Fail(SlotOutOfRange(ps[0].slot, |stacks|)))
  }

  /** A table is pending and this is the server side. */
  predicate Due(w: World, s: State) {
    s.lootTableLocation.Some? && !w.isRemote
  }

  /** The state after `fillWithLoot`, what it threw, and the filler call it made. */
  datatype Generation = Generation(state: State, outcome: Outcome<Error>, request: Option<Request>)

  /**
   * `fillWithLoot(player)`. Nothing happens unless `Due`; a missing server throws
   * before anything changes; otherwise the table is resolved, the pending id is
   * cleared, and only then is the filler called, on the slots as they were.
   */
  function FillWithLoot(w: World, s: State, player: Option<Player>): (g: Generation)
    ensures g.request.Some? <==> Due(w, s) && w.hasServer
    ensures g.request.None? ==> g.state == s
    ensures !Due(w, s) ==> g.outcome == Pass
    ensures Due(w, s) && !w.hasServer ==> g.outcome == Fail(NoServer)
    ensures g.request.Some? ==>
      && g.state.lootTableLocation.None?
      && g.request.value == Request(w.resolve(s.lootTableLocation.value), RandomFor(s.lootTableSeed), ContextFor(player))
      && var p := PlaceAll(s.stacks, w.filler(g.request.value.table, g.request.value.random, g.request.value.context, s.stacks));
         g.state.stacks == p.stacks && g.outcome == p.outcome
    ensures g.state.lootTableSeed == s.lootTableSeed
    ensures |g.state.stacks| == |s.stacks|
  {
    if !Due(w, s) then Generation(s, Pass, None)
    else if !w.hasServer then Generation(s, Fail(NoServer), None)
    else
      var table := w.resolve(s.lootTableLocation.value);
      var cleared := s.(lootTableLocation := None);
      var request := Request(table, RandomFor(s.lootTableSeed), ContextFor(player));
      var placed := PlaceAll(cleared.stacks, w.filler(request.table, request.random, request.context, cleared.stacks));
      Generation(cleared.(stacks := placed.stacks), placed.outcome, Some(request))
  }

  /** The state after an accessor, what it returned or threw, and the filler call it made. */
  datatype Accessed = Accessed(state: State, reply: Result<Reply, Error>, request: Option<Request>)

  /** An accessor: `fillWithLoot(null)`, then the base handler's operation. */
  function Access(w: World, rules: StackRules, s: State, op: SlotOp): (a: Accessed)
    ensures a.request.Some? <==> Due(w, s) && w.hasServer
    ensures a.request.Some? ==> a.request.value.context.luck.None? && a.state.lootTableLocation.None?
    ensures a.request.Some? ==> a.request.value.random == RandomFor(s.lootTableSeed)
    ensures a.request.None? ==> a.state.lootTableLocation == s.lootTableLocation
    ensures a.state.lootTableSeed == s.lootTableSeed
    ensures |a.state.stacks| == |s.stacks|
    ensures !Due(w, s) ==> match Apply(rules, s.stacks, op)
      case Err(e) => a == Accessed(s, Err(e), None)
      case Ok(ap) => a == Accessed(s.(stacks := ap.stacks), Ok(ap.reply), None)
    ensures Due(w, s) && !w.hasServer ==> a == Accessed(s, Err(NoServer), None)
    ensures Due(w, s) && w.hasServer ==>
      var g := FillWithLoot(w, s, None);
      && a.request == g.request
      && (g.outcome.Fail? ==> a == Accessed(g.state, Err(g.outcome.error), g.request))
      && (g.outcome.Pass? ==> match Apply(rules, g.state.stacks, op)
           case Err(e) => a == Accessed(g.state, Err(e), g.request)
           case Ok(ap) => a == Accessed(g.state.(stacks := ap.stacks), Ok(ap.reply), g.request))
  {
    var g := FillWithLoot(w, s, None);
    if g.outcome.Fail? then Accessed(g.state, Err(g.outcome.error), g.request)
    else match Apply(rules, g.state.stacks, op)
      case Err(e) => Accessed(g.state, Err(e), g.request)
      case Ok(ap) => Accessed(g.state.(stacks := ap.stacks), Ok(ap.reply), g.request)
  }

  /** The first `getStackInSlot` on a container whose loot is due sees the generated
      loot: it returns the slot as the filler's placements left it, and the container
      is left generated with nothing pending. */
  lemma FirstGetSeesLoot(w: World, rules: StackRules, s: State, slot: int)
    requires Due(w, s) && w.hasServer
    requires 0 <= slot < |s.stacks|
    requires PlaceAll(s.stacks, w.filler(w.resolve(s.lootTableLocation.value), RandomFor(s.lootTableSeed), LootContext(None), s.stacks)).outcome.Pass?
    ensures var loot := PlaceAll(s.stacks, w.filler(w.resolve(s.lootTableLocation.value), RandomFor(s.lootTableSeed), LootContext(None), s.stacks)).stacks;
      var a := Access(w, rules, s, GetStack(slot));
      && a.reply == Ok(Returned(loot[slot]))
      && a.state == State(loot, None, s.lootTableSeed)
      && a.request == Some(Request(w.resolve(s.lootTableLocation.value), RandomFor(s.lootTableSeed), LootContext(None)))
  {
  }

  /** Calling `fillWithLoot` a second time never calls the filler again, whatever player. */
  lemma FillTwiceFillsOnce(w: World, s: State, first: Option<Player>, second: Option<Player>)
    ensures FillWithLoot(w, FillWithLoot(w, s, first).state, second).request.None?
  {
  }

  /** A sequence of public calls on a container. */
  datatype Call = Accessor(op: SlotOp) | Fill(player: Option<Player>)

  datatype Stepped = Stepped(state: State, request: Option<Request>)

  function Step(w: World, rules: StackRules, s: State, c: Call): (r: Stepped)
    ensures r.request.Some? ==> Due(w, s) && w.hasServer && r.state.lootTableLocation.None?
    ensures r.request.None? ==> r.state.lootTableLocation == s.lootTableLocation
    ensures r.state.lootTableSeed == s.lootTableSeed
  {
    match c
    case Accessor(op) =>
      var a := Access(w, rules, s, op);
      Stepped(a.state, a.request)
    case Fill(player) =>
      var g := FillWithLoot(w, s, player);
      Stepped(g.state, g.request)
  }

  /** The final state and every filler call, in order, of a sequence of calls. */
  datatype Trace = Trace(state: State, requests: seq<Request>)

  function Run(w: World, rules: StackRules, s: State, calls: seq<Call>): (t: Trace)
    decreases |calls|
  {
    if calls == [] then Trace(s, [])
    else
      var st := Step(w, rules, s, calls[0]);
      var rest := Run(w, rules, st.state, calls[1..]);
      Trace(rest.state, Log(st.request) + rest.requests)
  }

  /** Once nothing is pending, no sequence of calls ever calls the filler or makes a
      table pending again. */
  lemma {:induction false} NothingPendingNeverGenerates(w: World, rules: StackRules, s: State, calls: seq<Call>)
    requires s.lootTableLocation.None?
    ensures Run(w, rules, s, calls).requests == []
    ensures Run(w, rules, s, calls).state.lootTableLocation.None?
    decreases |calls|
  {
    if calls != [] {
      var st := Step(w, rules, s, calls[0]);
      NothingPendingNeverGenerates(w, rules, st.state, calls[1..]);
    }
  }

  /** Generation happens at most once: any sequence of accessor and fill calls calls
      the filler at most once. */
  lemma {:induction false} GeneratesAtMostOnce(w: World, rules: StackRules, s: State, calls: seq<Call>)
    ensures |Run(w, rules, s, calls).requests| <= 1
    decreases |calls|
  {
    if calls != [] {
      var st := Step(w, rules, s, calls[0]);
      if st.request.Some? {
        NothingPendingNeverGenerates(w, rules, st.state, calls[1..]);
      } else {
        GeneratesAtMostOnce(w, rules, st.state, calls[1..]);
      }
    }
  }

  /** When generation is due and the server is there, the first call generates, so
      any non-empty sequence of calls calls the filler exactly once, with the stored
      seed's random source. */
  lemma GeneratesOnceWhenDue(w: World, rules: StackRules, s: State, calls: seq<Call>)
    requires Due(w, s) && w.hasServer && calls != []
    ensures |Run(w, rules, s, calls).requests| == 1
    ensures Run(w, rules, s, calls).requests[0].random == RandomFor(s.lootTableSeed)
    ensures Run(w, rules, s, calls).state.lootTableLocation.None?
  {
    var st := Step(w, rules, s, calls[0]);
    assert st.request.Some?;
    NothingPendingNeverGenerates(w, rules, st.state, calls[1..]);
  }

  /** On the client side no sequence of calls ever calls the filler, and the pending
      table stays pending. */
  lemma {:induction false} RemoteNeverGenerates(w: World, rules: StackRules, s: State, calls: seq<Call>)
    requires w.isRemote
    ensures Run(w, rules, s, calls).requests == []
    ensures Run(w, rules, s, calls).state.lootTableLocation == s.lootTableLocation
    decreases |calls|
  {
    if calls != [] {
      var st := Step(w, rules, s, calls[0]);
      RemoteNeverGenerates(w, rules, st.state, calls[1..]);
    }
  }

  /** Calls made only through the accessors never supply luck to the filler. */
  lemma {:induction false} AccessorsNeverSupplyLuck(w: World, rules: StackRules, s: State, calls: seq<Call>)
    requires forall k :: 0 <= k < |calls| ==> calls[k].Accessor?
    ensures forall k :: 0 <= k < |Run(w, rules, s, calls).requests| ==>
      Run(w, rules, s, calls).requests[k].context.luck.None?
    decreases |calls|
  {
    if calls != [] {
      var st := Step(w, rules, s, calls[0]);
      AccessorsNeverSupplyLuck(w, rules, st.state, calls[1..]);
    }
  }
}
