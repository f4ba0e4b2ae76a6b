/**
 * ModPotions: the names each potion is registered under, and the one-shot
 * `initialise` guard. The event bus, the deferred register and the potion
 * objects themselves are reduced to the entry list and a counter.
 */
module ModPotions {
  import opened Wrappers

  const LongPrefix := "long_"
  const StrongPrefix := "strong_"

  const HelpfulDurationStandard := 3600
  const HelpfulDurationLong := 9600
  const HelpfulDurationStrong := 1800

  const HarmfulDurationStandard := 1800
  const HarmfulDurationLong := 4800
  const HarmfulDurationStrong := 900

  /** The registry name: the prefix, when there is one, followed by the name. */
  function FullName(name: string, namePrefix: Option<string>): (r: string)
    ensures namePrefix.None? ==> r == name
    ensures namePrefix.Some? ==> |r| == |namePrefix.value| + |name|
    ensures namePrefix.Some? ==> r[..|namePrefix.value|] == namePrefix.value
    ensures r[|r| - |name|..] == name
  {
    if namePrefix.Some? then namePrefix.value + name else name
  }

  /** `String.replace(from, to)` on single characters. */
  function Replace(s: string, from: char, to: char): (r: string)
    ensures |r| == |s|
    ensures forall i :: 0 <= i < |s| ==> r[i] == if s[i] == from then to else s[i]
  {
    if s == [] then []
    else [if s[0] == from then to else s[0]] + Replace(s[1..], from, to)
  }

  /** The potion's base name: the mod id, a dot, and the name with every `/` made a `.`. */
  function BaseName(modId: string, name: string): (r: string)
    ensures |r| == |modId| + 1 + |name|
    ensures r[..|modId|] == modId && r[|modId|] == '.'
    ensures forall i :: 0 <= i < |name| ==> r[|modId| + 1 + i] == if name[i] == '/' then '.' else name[i]
    ensures '/' !in modId ==> '/' !in r
  {
    var r := modId + "." + Replace(name, '/', '.');
    assert forall i :: 0 <= i < |name| ==> r[|modId| + 1 + i] == Replace(name, '/', '.')[i];
    assert forall i :: 0 <= i < |modId| ==> r[i] == modId[i];
    r
  }

  /** A registered potion: its registry name, its base name and its one effect. */
  datatype PotionEntry = PotionEntry(registryName: string, baseName: string, duration: int, amplifier: int)

  datatype InitError = AlreadyInitialised

  /** The static state of ModPotions. */
  class Potions {
    const modId: string                // TestMod3.MODID
    var isInitialised: bool
    var entries: seq<PotionEntry>      // the potions in the deferred register, in order
    ghost var busRegistrations: nat    // calls of POTIONS.register(modEventBus)

    /** The static initialiser: registers TEST, LONG_TEST and STRONG_TEST. */
    constructor (modId: string)
      ensures this.modId == modId && !isInitialised && busRegistrations == 0
      ensures entries == [
        PotionEntry(FullName("test", None), BaseName(modId, "test"), HelpfulDurationStandard, 0),
        PotionEntry(FullName("test", Some(LongPrefix)), BaseName(modId, "test"), HelpfulDurationLong, 0),
        PotionEntry(FullName("test", Some(StrongPrefix)), BaseName(modId, "test"), HelpfulDurationStrong, 1)]
    {
      this.modId := modId;
      isInitialised := false;
      entries := [];
      busRegistrations := 0;
      new;
      RegisterPotion("test", HelpfulDurationStandard, 0, None);
      RegisterPotion("test", HelpfulDurationLong, 0, Some(LongPrefix));
      RegisterPotion("test", HelpfulDurationStrong, 1, Some(StrongPrefix));
    }

    /** `registerPotion(name, effectInstanceFactory, namePrefix)`. */
    method RegisterPotion(name: string, duration: int, amplifier: int, namePrefix: Option<string>)
      modifies this`entries
      ensures entries == old(entries) + [PotionEntry(FullName(name, namePrefix), BaseName(modId, name), duration, amplifier)]
    {
      var fullName := if namePrefix.Some? then namePrefix.value + name else name;
      var potionBaseName := modId + "." + Replace(name, '/', '.');
      entries := entries + [PotionEntry(fullName, potionBaseName, duration, amplifier)];
    }

    /** `initialise`: registers with the event bus once; a second call throws. */
    method Initialise() returns (r: Outcome<InitError>)
      modifies this`isInitialised, this`busRegistrations
      ensures isInitialised
      ensures old(isInitialised) ==> r == Fail(AlreadyInitialised) && busRegistrations == old(busRegistrations)
      ensures !old(isInitialised) ==> r == Pass && busRegistrations == old(busRegistrations) + 1
    {
      if isInitialised {
        return Fail(AlreadyInitialised);
      }
      busRegistrations := busRegistrations + 1;
      isInitialised := true;
      r := Pass;
    }
  }

  /** TEST, LONG_TEST and STRONG_TEST are registered as "test", "long_test" and
      "strong_test": three distinct names sharing one base name. */
  lemma TestPotionNames(modId: string)
    ensures FullName("test", None) == "test"
    ensures FullName("test", Some(LongPrefix)) == "long_test"
    ensures FullName("test", Some(StrongPrefix)) == "strong_test"
    ensures BaseName(modId, "test") == modId + ".test"
  {
  }

  /** The base name only sees the name with `/` already made `.`: `a/b` and `a.b`
      get the same base name. */
  lemma BaseNameCollapsesSlashes(modId: string, name: string)
    ensures BaseName(modId, name) == BaseName(modId, Replace(name, '/', '.'))
  {
  }

  /** Initialising twice registers with the bus once, and the second call throws. */
  method InitialiseTwice(p: Potions) returns (first: Outcome<InitError>, second: Outcome<InitError>)
    requires !p.isInitialised
    modifies p
    ensures first == Pass && second == Fail(AlreadyInitialised)
    ensures p.busRegistrations == old(p.busRegistrations) + 1
    ensures p.entries == old(p.entries)
  {
    first := p.Initialise();
    second := p.Initialise();
  }
}
