/**
 * The species property record of the game (`RaceProperties`): the rules the
 * game derives from a species definition (diet, intelligence classes, flesh
 * and blood defaults, name generators), its two write-once caches, the
 * resolution of borrowed meat and leather definitions, and the configuration
 * validator.
 *
 * The fields that the definition loader fills and the core only reads are
 * `const`; the four fields the core itself writes are `var`.
 */
module Races {
  import opened Wrappers

  /** An opaque definition the core only compares or passes on
      (a FleshTypeDef, RulePackDef, SoundDef, TrainabilityDef, or a worker Type). */
  datatype DefRef = DefRef(defName: string)

  /** `FoodTypeFlags`, a flag set over a 32-bit integer; `None` is the empty set. */
  type FoodTypeFlags = bv32

  const NoFood: FoodTypeFlags := 0

  /** The named food-type masks. Their numeric values are not fixed by the model. */
  datatype FoodMasks = FoodMasks(
    tree: FoodTypeFlags,
    meat: FoodTypeFlags,
    vegetableOrFruit: FoodTypeFlags,
    plant: FoodTypeFlags,
    animalProduct: FoodTypeFlags)

  datatype DietCategory =
    NeverEats | Herbivorous | Dendrovorous | Ovivorous | Omnivorous | Carnivorous

  /** Only `Undefined` matters to the core; the other preferabilities keep their ordinal. */
  datatype FoodPreferability = Undefined | Defined(ordinal: nat)

  datatype IngestibleProperties =
    IngestibleProperties(preferability: FoodPreferability, foodType: FoodTypeFlags)

  /** Only `Pawn` matters to the core; every other category keeps its name. */
  datatype ThingCategory = Pawn | NonPawn(name: string)

  datatype Gender = NoGender | Male | Female

  datatype LifeStageAge = LifeStageAge(minAge: real)

  /** What kind of death action worker the record creates on first access. */
  datatype WorkerKind = Simple | Reflected(workerClass: DefRef)

  /** The global definitions the rules refer to (`FleshTypeDefOf`, `ThingDefOf`, the mask values). */
  datatype DefsOf = DefsOf(
    normalFlesh: DefRef,
    mechanoidFlesh: DefRef,
    filthBlood: ThingDef,
    food: FoodMasks)

  /** A thing definition. `race` is null for things that are not pawns. */
  class ThingDef {
    const defName: string
    const category: ThingCategory
    const ingestible: Option<IngestibleProperties>
    const race: RaceProperties?

    constructor (defName: string, category: ThingCategory,
                 ingestible: Option<IngestibleProperties>, race: RaceProperties?)
      ensures this.defName == defName && this.category == category
      ensures this.ingestible == ingestible && this.race == race
    {
      this.defName := defName;
      this.category := category;
      this.ingestible := ingestible;
      this.race := race;
    }
  }

  /** A pawn kind definition; `race` is the thing definition of its species. */
  class PawnKindDef {
    const defName: string
    const race: ThingDef

    constructor (defName: string, race: ThingDef)
      ensures this.defName == defName && this.race == race
    {
      this.defName := defName;
      this.race := race;
    }
  }

  /** A death action worker; the reflected instantiation is opaque, only its kind is kept. */
  class DeathActionWorker {
    const kind: WorkerKind

    constructor (kind: WorkerKind)
      ensures this.kind == kind
    {
      this.kind := kind;
    }
  }

  const SoundMeleeHitPawnNull := "soundMeleeHitPawn is null"
  const SoundMeleeHitBuildingNull := "soundMeleeHitBuilding is null"
  const SoundMeleeMissNull := "soundMeleeMiss is null"
  const PredatorWithoutMeat := "predator but doesn't eat meat"
  const LifeStagesNotAscending := "lifeStages minAges are not in ascending order"
  const NameableWithoutGenerator := "can be named, but has no nameGenerator"
  const AnimalWithoutWildness := "is animal but wildness is not defined"
  const AnimalWithoutTrainability := "animal has trainability = null"

  /** "tries to use meat from non-pawn X" (a def prints as its defName). */
  function NonPawnSource(product: string, source: ThingDef): string {
    "tries to use " + product + " from non-pawn " + source.defName
  }

  /** "tries to use meat from X which uses meat from Y". */
  function ChainedSource(product: string, source: ThingDef, further: ThingDef): string {
    "tries to use " + product + " from " + source.defName + " which uses " + product + " from "
    + further.defName
  }

  /** What a validation pass yields: the messages produced before it stopped, and
      whether it stopped by throwing a NullReferenceException. */
  datatype Scan = Scan(errors: seq<string>, threw: bool)

  class RaceProperties {
    const intelligence: int
    const fleshType: Option<DefRef>
    const bloodDef: ThingDef?
    const foodType: FoodTypeFlags
    const deathActionWorkerClass: Option<DefRef>
    const predator: bool
    const wildness: real
    const herdMigrationAllowed: bool
    /** The litter size curve, given by the errors its own validator reports; None when unset. */
    const litterSizeCurve: Option<seq<string>>
    const trainability: Option<DefRef>
    const nameGenerator: Option<DefRef>
    const nameGeneratorFemale: Option<DefRef>
    const nameOnTameChance: real
    const lifeStageAges: seq<LifeStageAge>
    const useMeatFrom: ThingDef?
    const useLeatherFrom: ThingDef?
    const soundMeleeHitPawn: Option<DefRef>
    const soundMeleeHitBuilding: Option<DefRef>
    const soundMeleeMiss: Option<DefRef>

    var leatherDef: ThingDef?
    var meatDef: ThingDef?
    var deathActionWorkerInt: DeathActionWorker?
    var cachedAnyPawnKind: PawnKindDef?

    constructor (intelligence: int, fleshType: Option<DefRef>, bloodDef: ThingDef?,
                 foodType: FoodTypeFlags, deathActionWorkerClass: Option<DefRef>,
                 predator: bool, wildness: real, herdMigrationAllowed: bool,
                 litterSizeCurve: Option<seq<string>>, trainability: Option<DefRef>,
                 nameGenerator: Option<DefRef>, nameGeneratorFemale: Option<DefRef>,
                 nameOnTameChance: real, lifeStageAges: seq<LifeStageAge>,
                 useMeatFrom: ThingDef?, useLeatherFrom: ThingDef?, leatherDef: ThingDef?,
                 soundMeleeHitPawn: Option<DefRef>, soundMeleeHitBuilding: Option<DefRef>,
                 soundMeleeMiss: Option<DefRef>)
      ensures this.intelligence == intelligence && this.fleshType == fleshType
      ensures this.bloodDef == bloodDef && this.foodType == foodType
      ensures this.deathActionWorkerClass == deathActionWorkerClass
      ensures this.predator == predator && this.wildness == wildness
      ensures this.herdMigrationAllowed == herdMigrationAllowed
      ensures this.litterSizeCurve == litterSizeCurve && this.trainability == trainability
      ensures this.nameGenerator == nameGenerator && this.nameGeneratorFemale == nameGeneratorFemale
      ensures this.nameOnTameChance == nameOnTameChance && this.lifeStageAges == lifeStageAges
      ensures this.useMeatFrom == useMeatFrom && this.useLeatherFrom == useLeatherFrom
      ensures this.soundMeleeHitPawn == soundMeleeHitPawn
      ensures this.soundMeleeHitBuilding == soundMeleeHitBuilding
      ensures this.soundMeleeMiss == soundMeleeMiss
      ensures this.leatherDef == leatherDef && meatDef == null
      ensures deathActionWorkerInt == null && cachedAnyPawnKind == null
    {
      this.intelligence := intelligence;
      this.fleshType := fleshType;
      this.bloodDef := bloodDef;
      this.foodType := foodType;
      this.deathActionWorkerClass := deathActionWorkerClass;
      this.predator := predator;
      this.wildness := wildness;
      this.herdMigrationAllowed := herdMigrationAllowed;
      this.litterSizeCurve := litterSizeCurve;
      this.trainability := trainability;
      this.nameGenerator := nameGenerator;
      this.nameGeneratorFemale := nameGeneratorFemale;
      this.nameOnTameChance := nameOnTameChance;
      this.lifeStageAges := lifeStageAges;
      this.useMeatFrom := useMeatFrom;
      this.useLeatherFrom := useLeatherFrom;
      this.soundMeleeHitPawn := soundMeleeHitPawn;
      this.soundMeleeHitBuilding := soundMeleeHitBuilding;
      this.soundMeleeMiss := soundMeleeMiss;
      this.leatherDef := leatherDef;
      meatDef := null;
      deathActionWorkerInt := null;
      cachedAnyPawnKind := null;
    }

    // ----- intelligence and flesh classes -----

    /** Intelligence ordinals: 0 animal, 1 tool user, 2 humanlike. */
    predicate Humanlike() { intelligence >= 2 }

    predicate ToolUser() { intelligence >= 1 }

    function FleshType(d: DefsOf): DefRef { fleshType.GetOr(d.normalFlesh) }

    predicate IsMechanoid(d: DefsOf) { FleshType(d) == d.mechanoidFlesh }

    predicate IsFlesh(d: DefsOf) { FleshType(d) != d.mechanoidFlesh }

    predicate Animal(d: DefsOf) { if !ToolUser() then IsFlesh(d) else false }

    function BloodDef(d: DefsOf): ThingDef? {
      if bloodDef != null then bloodDef
      else if IsFlesh(d) then d.filthBlood
      else null
    }

    predicate CanDoHerdMigration(d: DefsOf) { if Animal(d) then herdMigrationAllowed else false }

    function GetNameGenerator(gender: Gender): Option<DefRef> {
      if gender == Female && nameGeneratorFemale.Some? then nameGeneratorFemale
      else nameGenerator
    }

    // ----- diet -----

    predicate EatsFood() { foodType != NoFood }

    predicate Eats(food: FoodTypeFlags) {
      if !EatsFood() then false else foodType & food != 0
    }

    function ResolvedDietCategory(m: FoodMasks): DietCategory {
      if !EatsFood() then NeverEats
      else if Eats(m.tree) then Dendrovorous
      else if Eats(m.meat) then
        (if Eats(m.vegetableOrFruit) || Eats(m.plant) then Omnivorous else Carnivorous)
      else if Eats(m.animalProduct) then Ovivorous
      else Herbivorous
    }

    /** Hunger level below which the creature wants to eat. `DietCategory` is closed,
        so the source's throwing default has no counterpart. */
    function FoodLevelPercentageWantEat(m: FoodMasks): real {
      match ResolvedDietCategory(m)
      case NeverEats => 0.3
      case Omnivorous => 0.3
      case Carnivorous => 0.3
      case Ovivorous => 0.4
      case Herbivorous => 0.45
      case Dendrovorous => 0.45
    }

    predicate CanEverEat(t: ThingDef) {
      if !EatsFood() then false
      else if t.ingestible.None? then false
      else if t.ingestible.value.preferability == Undefined then false
      else Eats(t.ingestible.value.foodType)
    }

    // ----- write-once caches -----

    /** The worker the record creates when its cache is still empty. */
    function WorkerKindToCreate(): WorkerKind {
      match deathActionWorkerClass
      case Some(c) => Reflected(c)
      case None => Simple
    }

    /** `DeathActionWorker`: creates the worker on first access and returns the cached one after. */
    method GetDeathActionWorker() returns (worker: DeathActionWorker)
      modifies this`deathActionWorkerInt
      ensures deathActionWorkerInt == worker
      ensures old(deathActionWorkerInt) != null ==> worker == old(deathActionWorkerInt)
      ensures old(deathActionWorkerInt) == null ==> fresh(worker) && worker.kind == WorkerKindToCreate()
    {
      if deathActionWorkerInt == null {
        deathActionWorkerInt := new DeathActionWorker(WorkerKindToCreate());
      }
      worker := deathActionWorkerInt;
    }

    /** The first pawn kind in `registry` whose species is this record, or null. */
    function FirstKindOf(registry: seq<PawnKindDef>): (kind: PawnKindDef?)
      ensures kind == null <==> forall i :: 0 <= i < |registry| ==> registry[i].race.race != this
      ensures kind != null ==>
        exists i :: 0 <= i < |registry| && registry[i] == kind && kind.race.race == this &&
          forall h :: 0 <= h < i ==> registry[h].race.race != this
      decreases |registry|
    {
      if |registry| == 0 then null
      else if registry[0].race.race == this then registry[0]
      else
        var rest := registry[1..];
        var kind := FirstKindOf(rest);
        assert forall i :: 1 <= i < |registry| ==> registry[i] == rest[i - 1];
        assert kind != null ==>
          exists i :: 0 <= i < |rest| && rest[i] == kind && kind.race.race == this &&
            forall h :: 0 <= h < i ==> rest[h].race.race != this;
        kind
    }

    /** `AnyPawnKind`: searches the pawn-kind registry in order while the cache is empty. */
    method GetAnyPawnKind(registry: seq<PawnKindDef>) returns (kind: PawnKindDef?)
      modifies this`cachedAnyPawnKind
      ensures cachedAnyPawnKind ==
        (if old(cachedAnyPawnKind) != null then old(cachedAnyPawnKind) else FirstKindOf(registry))
      ensures kind == cachedAnyPawnKind
    {
      if cachedAnyPawnKind == null {
        var i := 0;
        while i < |registry|
          invariant 0 <= i <= |registry|
          invariant cachedAnyPawnKind == null
          invariant FirstKindOf(registry) == FirstKindOf(registry[i..])
        {
          if registry[i].race.race == this {
            cachedAnyPawnKind := registry[i];
            break;
          }
          assert registry[i..][1..] == registry[i + 1..];
          i := i + 1;
        }
      }
      kind := cachedAnyPawnKind;
    }

    // ----- reference resolution -----

    /** The borrowed meat and leather sources are pawns' thing definitions (the source
        dereferences their `race` without a null test). */
    predicate SourcesHaveRace() {
      (useMeatFrom != null ==> useMeatFrom.race != null) &&
      (useLeatherFrom != null ==> useLeatherFrom.race != null)
    }

    method ResolveReferencesSpecial()
      requires SourcesHaveRace()
      modifies this`meatDef, this`leatherDef
      ensures meatDef == if useMeatFrom != null then old(useMeatFrom.race.meatDef) else old(meatDef)
      ensures leatherDef ==
        if useLeatherFrom != null then old(useLeatherFrom.race.leatherDef) else old(leatherDef)
    {
      if useMeatFrom != null {
        meatDef := useMeatFrom.race.meatDef;
      }
      if useLeatherFrom != null {
        leatherDef := useLeatherFrom.race.leatherDef;
      }
    }

    // ----- configuration errors -----

    function SoundErrors(): seq<string> {
      (if soundMeleeHitPawn.None? then [SoundMeleeHitPawnNull] else [])
      + (if soundMeleeHitBuilding.None? then [SoundMeleeHitBuildingNull] else [])
      + (if soundMeleeMiss.None? then [SoundMeleeMissNull] else [])
    }

    function PredatorErrors(m: FoodMasks): seq<string> {
      if predator && !Eats(m.meat) then [PredatorWithoutMeat] else []
    }

    function LitterSizeCurveErrors(): seq<string> {
      match litterSizeCurve
      case Some(errors) => errors
      case None => []
    }

    function NamingErrors(): seq<string> {
      if nameOnTameChance > 0.0 && nameGenerator.None? then [NameableWithoutGenerator] else []
    }

    function WildnessErrors(d: DefsOf): seq<string> {
      if Animal(d) && wildness < 0.0 then [AnimalWithoutWildness] else []
    }

    /** The checks that precede the borrowed-source checks; none of them can throw. */
    function ChecksBeforeSources(d: DefsOf): seq<string> {
      SoundErrors() + PredatorErrors(d.food) + LifeStageOrderErrors(lifeStageAges)
      + LitterSizeCurveErrors() + NamingErrors() + WildnessErrors(d)
    }

    /** The two borrowed-meat checks. The chained check reads the source's `race` without a
        null test, so a source without a race ends the scan after the non-pawn check. */
    function MeatSourceScan(): Scan {
      if useMeatFrom == null then Scan([], false)
      else
        var nonPawn := if useMeatFrom.category != Pawn then [NonPawnSource("meat", useMeatFrom)] else [];
        if useMeatFrom.race == null then Scan(nonPawn, true)
        else if useMeatFrom.race.useMeatFrom != null then
          Scan(nonPawn + [ChainedSource("meat", useMeatFrom, useMeatFrom.race.useMeatFrom)], false)
        else Scan(nonPawn, false)
    }

    /** The two borrowed-leather checks, with the same unguarded dereference. */
    function LeatherSourceScan(): Scan {
      if useLeatherFrom == null then Scan([], false)
      else
        var nonPawn := if useLeatherFrom.category != Pawn then [NonPawnSource("leather", useLeatherFrom)] else [];
        if useLeatherFrom.race == null then Scan(nonPawn, true)
        else if useLeatherFrom.race.useLeatherFrom != null then
          Scan(nonPawn + [ChainedSource("leather", useLeatherFrom, useLeatherFrom.race.useLeatherFrom)], false)
        else Scan(nonPawn, false)
    }

    function TrainabilityErrors(d: DefsOf): seq<string> {
      if Animal(d) && trainability.None? then [AnimalWithoutTrainability] else []
    }

    /** What `ConfigErrors` yields, section by section in the order it checks them, up to
        the first exception. */
    function ExpectedConfigErrors(d: DefsOf): Scan {
      var meat, leather := MeatSourceScan(), LeatherSourceScan();
      if meat.threw then Scan(ChecksBeforeSources(d) + meat.errors, true)
      else if leather.threw then Scan(ChecksBeforeSources(d) + meat.errors + leather.errors, true)
      else Scan(ChecksBeforeSources(d) + meat.errors + leather.errors + TrainabilityErrors(d), false)
    }

    /** The borrowed-source checks with the chained test guarded by `race != null`. */
    function GuardedMeatSourceErrors(): seq<string> {
      (if useMeatFrom != null && useMeatFrom.category != Pawn
       then [NonPawnSource("meat", useMeatFrom)] else [])
      + (if useMeatFrom != null && useMeatFrom.race != null && useMeatFrom.race.useMeatFrom != null
         then [ChainedSource("meat", useMeatFrom, useMeatFrom.race.useMeatFrom)] else [])
    }

    function GuardedLeatherSourceErrors(): seq<string> {
      (if useLeatherFrom != null && useLeatherFrom.category != Pawn
       then [NonPawnSource("leather", useLeatherFrom)] else [])
      + (if useLeatherFrom != null && useLeatherFrom.race != null && useLeatherFrom.race.useLeatherFrom != null
         then [ChainedSource("leather", useLeatherFrom, useLeatherFrom.race.useLeatherFrom)] else [])
    }

    /** The validator as evidently intended: every check runs and nothing throws. */
    function GuardedConfigErrors(d: DefsOf): seq<string> {
      ChecksBeforeSources(d) + GuardedMeatSourceErrors() + GuardedLeatherSourceErrors()
      + TrainabilityErrors(d)
    }

    /** The four borrowed-source checks of `ConfigErrors`, meat before leather; `threw`
        reports the NullReferenceException of a source without a race. */
    method AppendSourceErrors(before: seq<string>) returns (errors: seq<string>, threw: bool)
      ensures threw == (MeatSourceScan().threw || LeatherSourceScan().threw)
      ensures errors == before + MeatSourceScan().errors
                      + (if MeatSourceScan().threw then [] else LeatherSourceScan().errors)
    {
      errors, threw := before, false;
      if useMeatFrom != null && useMeatFrom.category != Pawn {
        errors := errors + [NonPawnSource("meat", useMeatFrom)];
      }
      if useMeatFrom != null {
        if useMeatFrom.race == null {
          threw := true;
          return;
        }
        if useMeatFrom.race.useMeatFrom != null {
          errors := errors + [ChainedSource("meat", useMeatFrom, useMeatFrom.race.useMeatFrom)];
        }
      }
      assert errors == before + MeatSourceScan().errors;
      ghost var prefix := errors;
      if useLeatherFrom != null && useLeatherFrom.category != Pawn {
        errors := errors + [NonPawnSource("leather", useLeatherFrom)];
      }
      if useLeatherFrom != null {
        if useLeatherFrom.race == null {
          threw := true;
          return;
        }
        if useLeatherFrom.race.useLeatherFrom != null {
          errors := errors + [ChainedSource("leather", useLeatherFrom, useLeatherFrom.race.useLeatherFrom)];
        }
      }
      assert errors == prefix + LeatherSourceScan().errors;
    }

    /** `ConfigErrors`: collects the error strings in order, with the pairwise life-stage
        scan; `threw` is set when a check dereferences a missing race. */
    method ConfigErrors(d: DefsOf) returns (errors: seq<string>, threw: bool)
      ensures Scan(errors, threw) == ExpectedConfigErrors(d)
    {
      errors := [];
      if soundMeleeHitPawn.None? {
        errors := errors + [SoundMeleeHitPawnNull];
      }
      if soundMeleeHitBuilding.None? {
        errors := errors + [SoundMeleeHitBuildingNull];
      }
      if soundMeleeMiss.None? {
        errors := errors + [SoundMeleeMissNull];
      }
      assert errors == SoundErrors();
      ghost var prefix := errors;
      if predator && !Eats(d.food.meat) {
        errors := errors + [PredatorWithoutMeat];
      }
      assert errors == prefix + PredatorErrors(d.food);
      errors := AppendLifeStageOrderErrors(lifeStageAges, errors);
      prefix := errors;
      if litterSizeCurve.Some? {
        errors := errors + litterSizeCurve.value;
      }
      assert errors == prefix + LitterSizeCurveErrors();
      prefix := errors;
      if nameOnTameChance > 0.0 && nameGenerator.None? {
        errors := errors + [NameableWithoutGenerator];
      }
      assert errors == prefix + NamingErrors();
      prefix := errors;
      if Animal(d) && wildness < 0.0 {
        errors := errors + [AnimalWithoutWildness];
      }
      assert errors == prefix + WildnessErrors(d);
      assert errors == ChecksBeforeSources(d);
      errors, threw := AppendSourceErrors(errors);
      if threw {
        return;
      }
      prefix := errors;
      if Animal(d) && trainability.None? {
        errors := errors + [AnimalWithoutTrainability];
      }
      assert errors == prefix + TrainabilityErrors(d);
    }
  }

  // ----- the pairwise life-stage order check -----

  /** The messages for the pairs (h, j) with h < i, in the inner loop's order. */
  function PairErrors(ages: seq<LifeStageAge>, i: nat, j: nat): seq<string>
    requires i <= j < |ages|
  {
    if i == 0 then []
    else PairErrors(ages, i - 1, j)
         + (if ages[i - 1].minAge > ages[j].minAge then [LifeStagesNotAscending] else [])
  }

  /** The messages for every pair (i, j) with i < j < u, in the nested loops' order. */
  function OrderErrors(ages: seq<LifeStageAge>, u: nat): seq<string>
    requires u <= |ages|
  {
    if u == 0 then [] else OrderErrors(ages, u - 1) + PairErrors(ages, u - 1, u - 1)
  }

  function LifeStageOrderErrors(ages: seq<LifeStageAge>): seq<string> {
    OrderErrors(ages, |ages|)
  }

  /** The nested loops of `ConfigErrors`: one message per pair i < j with ages out of order. */
  method AppendLifeStageOrderErrors(ages: seq<LifeStageAge>, before: seq<string>)
    returns (errors: seq<string>)
    ensures errors == before + LifeStageOrderErrors(ages)
  {
    errors := before;
    var j := 0;
    while j < |ages|
      invariant 0 <= j <= |ages|
      invariant errors == before + OrderErrors(ages, j)
    {
      var i := 0;
      while i < j
        invariant 0 <= i <= j
        invariant errors == before + OrderErrors(ages, j) + PairErrors(ages, i, j)
      {
        if ages[i].minAge > ages[j].minAge {
          errors := errors + [LifeStagesNotAscending];
        }
        i := i + 1;
      }
      j := j + 1;
    }
  }

  /** The index pairs (i, j), i < j < u, whose minimum ages are out of order. */
  ghost function InversionsBelow(ages: seq<LifeStageAge>, u: nat): set<(int, int)>
    requires u <= |ages|
  {
    set i, j | 0 <= i < j < u && ages[i].minAge > ages[j].minAge :: (i, j)
  }

  /** The pairs (h, j), h < i, whose minimum ages are out of order. */
  ghost function InversionsWith(ages: seq<LifeStageAge>, i: nat, j: nat): set<(int, int)>
    requires i <= j < |ages|
  {
    set h | 0 <= h < i && ages[h].minAge > ages[j].minAge :: (h, j)
  }

  ghost predicate Ascending(ages: seq<LifeStageAge>) {
    forall i, j :: 0 <= i < j < |ages| ==> ages[i].minAge <= ages[j].minAge
  }
}

/** Properties of the species property record. */
module RaceFacts {
  import opened Wrappers
  import opened Races

  // ----- intelligence and flesh classes -----

  lemma HumanlikeIsToolUser(r: RaceProperties)
    ensures r.Humanlike() ==> r.ToolUser()
  {
  }

  lemma AnimalExactly(r: RaceProperties, d: DefsOf)
    ensures r.Animal(d) <==> !r.ToolUser() && r.IsFlesh(d)
    ensures r.Animal(d) ==> !r.Humanlike() && !r.IsMechanoid(d)
  {
  }

  lemma FleshTypeDefaults(r: RaceProperties, d: DefsOf)
    ensures r.fleshType.Some? ==> r.FleshType(d) == r.fleshType.value
    ensures r.fleshType.None? ==> r.FleshType(d) == d.normalFlesh
    ensures r.IsMechanoid(d) <==> !r.IsFlesh(d)
    ensures r.fleshType.None? && d.normalFlesh != d.mechanoidFlesh ==> r.IsFlesh(d)
  {
  }

  lemma BloodDefDefaults(r: RaceProperties, d: DefsOf)
    ensures r.bloodDef != null ==> r.BloodDef(d) == r.bloodDef
    ensures r.bloodDef == null && r.IsFlesh(d) ==> r.BloodDef(d) == d.filthBlood
    ensures r.BloodDef(d) == null <==> r.bloodDef == null && r.IsMechanoid(d)
  {
  }

  lemma HerdMigrationExactly(r: RaceProperties, d: DefsOf)
    ensures r.CanDoHerdMigration(d) <==> r.Animal(d) && r.herdMigrationAllowed
  {
  }

  lemma NameGeneratorChoice(r: RaceProperties, gender: Gender)
    ensures gender == Female && r.nameGeneratorFemale.Some? ==>
              r.GetNameGenerator(gender) == r.nameGeneratorFemale
    ensures gender != Female || r.nameGeneratorFemale.None? ==>
              r.GetNameGenerator(gender) == r.nameGenerator
    ensures r.GetNameGenerator(gender) in {r.nameGenerator, r.nameGeneratorFemale}
  {
  }

  // ----- diet -----

  lemma EatsExactly(r: RaceProperties, food: FoodTypeFlags)
    ensures r.foodType == NoFood ==> !r.Eats(food)
    ensures r.Eats(food) <==> r.foodType & food != 0
    ensures r.Eats(food) ==> r.EatsFood() && food != NoFood
  {
  }

  /** The diet classes in priority order: tree eaters first, then meat eaters split by
      whether they also eat vegetables, fruit or plants, then eaters of animal products. */
  lemma DietCategoryExactly(r: RaceProperties, m: FoodMasks)
    ensures r.ResolvedDietCategory(m) == NeverEats <==> r.foodType == NoFood
    ensures r.ResolvedDietCategory(m) == Dendrovorous <==> r.Eats(m.tree)
    ensures r.ResolvedDietCategory(m) == Omnivorous <==>
      !r.Eats(m.tree) && r.Eats(m.meat) && (r.Eats(m.vegetableOrFruit) || r.Eats(m.plant))
    ensures r.ResolvedDietCategory(m) == Carnivorous <==>
      !r.Eats(m.tree) && r.Eats(m.meat) && !r.Eats(m.vegetableOrFruit) && !r.Eats(m.plant)
    ensures r.ResolvedDietCategory(m) == Ovivorous <==>
      !r.Eats(m.tree) && !r.Eats(m.meat) && r.Eats(m.animalProduct)
    ensures r.ResolvedDietCategory(m) == Herbivorous <==>
      r.EatsFood() && !r.Eats(m.tree) && !r.Eats(m.meat) && !r.Eats(m.animalProduct)
  {
  }

  /** The named food-type masks the diet rules test. */
  datatype FoodMaskName = Tree | Meat | VegetableOrFruit | Plant | AnimalProduct

  function MaskOf(m: FoodMasks, name: FoodMaskName): FoodTypeFlags {
    match name
    case Tree => m.tree
    case Meat => m.meat
    case VegetableOrFruit => m.vegetableOrFruit
    case Plant => m.plant
    case AnimalProduct => m.animalProduct
  }

  /** A diet rule fires when the creature eats `needs` and, unless `alsoAnyOf` is
      empty, one of the foods in `alsoAnyOf`. */
  datatype DietRule = DietRule(needs: FoodMaskName, alsoAnyOf: seq<FoodMaskName>, category: DietCategory)

  /** The diet rules in priority order; a creature that eats and fits no rule is herbivorous. */
  const DietRules: seq<DietRule> := [
    DietRule(Tree, [], Dendrovorous),
    DietRule(Meat, [VegetableOrFruit, Plant], Omnivorous),
    DietRule(Meat, [], Carnivorous),
    DietRule(AnimalProduct, [], Ovivorous)
  ]

  predicate Fires(r: RaceProperties, m: FoodMasks, rule: DietRule) {
    && r.Eats(MaskOf(m, rule.needs))
    && (rule.alsoAnyOf == [] || exists k :: 0 <= k < |rule.alsoAnyOf| && r.Eats(MaskOf(m, rule.alsoAnyOf[k])))
  }

  /** The category of the first rule at or after `from` that fires, or `fallback`. */
  function FirstFiring(r: RaceProperties, m: FoodMasks, from: nat, fallback: DietCategory): DietCategory
    decreases |DietRules| - from
  {
    if from >= |DietRules| then fallback
    else if Fires(r, m, DietRules[from]) then DietRules[from].category
    else FirstFiring(r, m, from + 1, fallback)
  }

  function DietByRules(r: RaceProperties, m: FoodMasks): DietCategory {
    if !r.EatsFood() then NeverEats else FirstFiring(r, m, 0, Herbivorous)
  }

  /** `ResolvedDietCategory` is the category of the first rule of `DietRules` that fires. */
  lemma ResolvedDietCategoryByRules(r: RaceProperties, m: FoodMasks)
    ensures r.ResolvedDietCategory(m) == DietByRules(r, m)
  {
    var omnivore := DietRules[1];
    assert Fires(r, m, omnivore) <==>
      r.Eats(m.meat) && (r.Eats(m.vegetableOrFruit) || r.Eats(m.plant))
    by {
      assert omnivore.alsoAnyOf[0] == VegetableOrFruit && omnivore.alsoAnyOf[1] == Plant;
    }
    assert FirstFiring(r, m, 4, Herbivorous) == Herbivorous;
    assert FirstFiring(r, m, 3, Herbivorous) ==
      if r.Eats(m.animalProduct) then Ovivorous else Herbivorous;
    assert FirstFiring(r, m, 2, Herbivorous) ==
      if r.Eats(m.meat) then Carnivorous else FirstFiring(r, m, 3, Herbivorous);
  }

  lemma WantEatLevels(r: RaceProperties, m: FoodMasks)
    ensures r.FoodLevelPercentageWantEat(m) in {0.3, 0.4, 0.45}
    ensures r.FoodLevelPercentageWantEat(m) == 0.3 <==>
      r.ResolvedDietCategory(m) in {NeverEats, Omnivorous, Carnivorous}
    ensures r.FoodLevelPercentageWantEat(m) == 0.4 <==> r.ResolvedDietCategory(m) == Ovivorous
    ensures r.FoodLevelPercentageWantEat(m) == 0.45 <==>
      r.ResolvedDietCategory(m) in {Herbivorous, Dendrovorous}
  {
  }

  lemma CanEverEatExactly(r: RaceProperties, t: ThingDef)
    ensures r.CanEverEat(t) <==>
      r.EatsFood() && t.ingestible.Some? && t.ingestible.value.preferability != Undefined &&
      r.Eats(t.ingestible.value.foodType)
  {
  }

  // ----- write-once caches -----

  /** Two accesses in a row: the second returns the object the first cached. */
  method DeathActionWorkerIsStable(r: RaceProperties) returns (first: DeathActionWorker, second: DeathActionWorker)
    modifies r`deathActionWorkerInt
    ensures first == second && r.deathActionWorkerInt == first
    ensures old(r.deathActionWorkerInt) != null ==> first == old(r.deathActionWorkerInt)
    ensures old(r.deathActionWorkerInt) == null ==> fresh(first) && first.kind == r.WorkerKindToCreate()
  {
    first := r.GetDeathActionWorker();
    second := r.GetDeathActionWorker();
  }

  /** Once a pawn kind is cached, later accesses return it whatever the registry holds;
      while none is found the cache stays empty and the next access searches again. */
  method AnyPawnKindIsStable(r: RaceProperties, registry: seq<PawnKindDef>, later: seq<PawnKindDef>)
    returns (first: PawnKindDef?, second: PawnKindDef?)
    requires r.cachedAnyPawnKind == null
    modifies r`cachedAnyPawnKind
    ensures first == r.FirstKindOf(registry)
    ensures first != null ==> second == first
    ensures first == null ==> second == r.FirstKindOf(later)
  {
    first := r.GetAnyPawnKind(registry);
    second := r.GetAnyPawnKind(later);
  }

  // ----- configuration errors -----

  lemma {:induction false} PairErrorsAreUniform(ages: seq<LifeStageAge>, i: nat, j: nat)
    requires i <= j < |ages|
    ensures forall e :: e in PairErrors(ages, i, j) ==> e == LifeStagesNotAscending
  {
    if i > 0 {
      PairErrorsAreUniform(ages, i - 1, j);
    }
  }

  lemma {:induction false} OrderErrorsAreUniform(ages: seq<LifeStageAge>, u: nat)
    requires u <= |ages|
    ensures forall e :: e in OrderErrors(ages, u) ==> e == LifeStagesNotAscending
  {
    if u > 0 {
      OrderErrorsAreUniform(ages, u - 1);
      PairErrorsAreUniform(ages, u - 1, u - 1);
    }
  }

  lemma {:induction false} PairErrorsCount(ages: seq<LifeStageAge>, i: nat, j: nat)
    requires i <= j < |ages|
    ensures |PairErrors(ages, i, j)| == |InversionsWith(ages, i, j)|
  {
    if i == 0 {
      assert InversionsWith(ages, i, j) == {};
    } else {
      PairErrorsCount(ages, i - 1, j);
      var before, now := InversionsWith(ages, i - 1, j), InversionsWith(ages, i, j);
      if ages[i - 1].minAge > ages[j].minAge {
        assert now == before + {(i - 1, j)};
        assert (i - 1, j) !in before;
      } else {
        assert now == before;
      }
    }
  }

  lemma {:induction false} OrderErrorsCount(ages: seq<LifeStageAge>, u: nat)
    requires u <= |ages|
    ensures |OrderErrors(ages, u)| == |InversionsBelow(ages, u)|
  {
    if u == 0 {
      assert InversionsBelow(ages, u) == {};
    } else {
      OrderErrorsCount(ages, u - 1);
      PairErrorsCount(ages, u - 1, u - 1);
      var all, earlier, last :=
        InversionsBelow(ages, u), InversionsBelow(ages, u - 1), InversionsWith(ages, u - 1, u - 1);
      forall p | p in all ensures p in earlier + last {
        var i, j := p.0, p.1;
        assert 0 <= i < j < u && ages[i].minAge > ages[j].minAge;
        if j < u - 1 {
          assert (i, j) in earlier;
        } else {
          assert (i, j) in last;
        }
      }
      forall p | p in earlier + last ensures p in all {
      }
      assert all == earlier + last;
      forall p | p in last ensures p !in earlier {
      }
      assert earlier * last == {};
    }
  }

  /** `ConfigErrors` reports the life-stage message once for every out-of-order pair. */
  lemma LifeStageErrorsCountInversions(ages: seq<LifeStageAge>)
    ensures |LifeStageOrderErrors(ages)| == |InversionsBelow(ages, |ages|)|
    ensures forall e :: e in LifeStageOrderErrors(ages) ==> e == LifeStagesNotAscending
  {
    OrderErrorsCount(ages, |ages|);
    OrderErrorsAreUniform(ages, |ages|);
  }

  /** No life-stage message exactly when the minimum ages never decrease (ties allowed). */
  lemma LifeStageErrorsNoneIffAscending(ages: seq<LifeStageAge>)
    ensures LifeStageOrderErrors(ages) == [] <==> Ascending(ages)
  {
    LifeStageErrorsCountInversions(ages);
    var inv := InversionsBelow(ages, |ages|);
    if !Ascending(ages) {
      var i, j :| 0 <= i < j < |ages| && ages[i].minAge > ages[j].minAge;
      assert (i, j) in inv;
    } else {
      assert inv == {};
    }
  }

  /** The scan throws exactly when a borrowed meat or leather source has no race. */
  lemma ConfigErrorsThrowExactly(r: RaceProperties, d: DefsOf)
    ensures r.ExpectedConfigErrors(d).threw <==>
      (r.useMeatFrom != null && r.useMeatFrom.race == null)
      || (r.useLeatherFrom != null && r.useLeatherFrom.race == null)
  {
  }

  /** A record passes validation, without an exception, exactly when every check of
      `ConfigErrors` is satisfied. */
  lemma ConfigErrorsNoneIff(r: RaceProperties, d: DefsOf)
    ensures r.ExpectedConfigErrors(d) == Scan([], false) <==>
      && r.soundMeleeHitPawn.Some? && r.soundMeleeHitBuilding.Some? && r.soundMeleeMiss.Some?
      && (r.predator ==> r.Eats(d.food.meat))
      && Ascending(r.lifeStageAges)
      && (r.litterSizeCurve.Some? ==> r.litterSizeCurve.value == [])
      && (r.nameOnTameChance > 0.0 ==> r.nameGenerator.Some?)
      && (r.Animal(d) ==> r.wildness >= 0.0 && r.trainability.Some?)
      && (r.useMeatFrom != null ==>
            && r.useMeatFrom.category == Pawn && r.useMeatFrom.race != null
            && r.useMeatFrom.race.useMeatFrom == null)
      && (r.useLeatherFrom != null ==>
            && r.useLeatherFrom.category == Pawn && r.useLeatherFrom.race != null
            && r.useLeatherFrom.race.useLeatherFrom == null)
  {
    LifeStageErrorsNoneIffAscending(r.lifeStageAges);
  }

  /** As written: a non-pawn meat source without a race yields the non-pawn message and
      then throws, so the leather and trainability checks never run. */
  lemma RacelessMeatSourceAbortsScan(r: RaceProperties, d: DefsOf)
    requires r.useMeatFrom != null && r.useMeatFrom.category != Pawn && r.useMeatFrom.race == null
    ensures r.ExpectedConfigErrors(d).threw
    ensures r.ExpectedConfigErrors(d).errors ==
      r.ChecksBeforeSources(d) + [NonPawnSource("meat", r.useMeatFrom)]
    ensures r.GuardedConfigErrors(d) == r.ExpectedConfigErrors(d).errors
      + r.GuardedLeatherSourceErrors() + r.TrainabilityErrors(d)
  {
  }

  /** The guarded checks report the same messages as the unguarded ones up to the throw. */
  lemma GuardedSourceChecksAgree(r: RaceProperties)
    ensures r.GuardedMeatSourceErrors() == r.MeatSourceScan().errors
    ensures r.GuardedLeatherSourceErrors() == r.LeatherSourceScan().errors
  {
  }

  /** The guarded validator never loses a message: what the source yields before any throw
      is a prefix of it, and without a throw the two agree. */
  lemma GuardedConfigErrorsExtendScan(r: RaceProperties, d: DefsOf)
    ensures r.ExpectedConfigErrors(d).errors <= r.GuardedConfigErrors(d)
    ensures !r.ExpectedConfigErrors(d).threw ==> r.GuardedConfigErrors(d) == r.ExpectedConfigErrors(d).errors
  {
    GuardedSourceChecksAgree(r);
    var head, meat, leather := r.ChecksBeforeSources(d), r.MeatSourceScan(), r.LeatherSourceScan();
    var full := r.GuardedConfigErrors(d);
    assert full == head + meat.errors + leather.errors + r.TrainabilityErrors(d);
    if meat.threw {
      assert full == (head + meat.errors) + (leather.errors + r.TrainabilityErrors(d));
    } else if leather.threw {
      assert full == (head + meat.errors + leather.errors) + r.TrainabilityErrors(d);
    }
  }

  /** The guarded validator reports nothing exactly when every check is satisfied; a borrowed
      source without a race then only has to be a pawn. */
  lemma GuardedConfigErrorsNoneIff(r: RaceProperties, d: DefsOf)
    ensures r.GuardedConfigErrors(d) == [] <==>
      && r.soundMeleeHitPawn.Some? && r.soundMeleeHitBuilding.Some? && r.soundMeleeMiss.Some?
      && (r.predator ==> r.Eats(d.food.meat))
      && Ascending(r.lifeStageAges)
      && (r.litterSizeCurve.Some? ==> r.litterSizeCurve.value == [])
      && (r.nameOnTameChance > 0.0 ==> r.nameGenerator.Some?)
      && (r.Animal(d) ==> r.wildness >= 0.0 && r.trainability.Some?)
      && (r.useMeatFrom != null ==>
            r.useMeatFrom.category == Pawn
            && (r.useMeatFrom.race != null ==> r.useMeatFrom.race.useMeatFrom == null))
      && (r.useLeatherFrom != null ==>
            r.useLeatherFrom.category == Pawn
            && (r.useLeatherFrom.race != null ==> r.useLeatherFrom.race.useLeatherFrom == null))
  {
    LifeStageErrorsNoneIffAscending(r.lifeStageAges);
  }
}
