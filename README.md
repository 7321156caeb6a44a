# Species properties and mod content loading

A Dafny model of two pieces of the game's definition layer.

- `RaceProperties` is the per-species record attached to a pawn's thing definition.
  - Derived classifications: humanlike, tool user, animal, mechanoid or flesh.
  - Diet: the food-type bit test, the resolved diet category, the hunger threshold and whether a thing can ever be eaten.
  - Defaults: flesh type, blood filth and the name generator.
  - Two write-once caches: the death-action worker and any pawn kind of the species.
  - Reference resolution: meat and leather borrowed from another species.
  - `ConfigErrors`, the ordered list of validation messages.
- `ModContentLoader<T>` is the generic asset loader.
  - The case-insensitive extension tables per content type.
  - The choice of audio decoder from a URI and the streaming threshold.
  - `LoadItem`, with its fallbacks when decoding throws.
  - `LoadAllForMod`, which keeps the loaded entries of a mod's file map in order.

Layout:

- `wrappers.dfy`: `Option`, which models a reference that may be null.
- `races.dfy`:
  - module `Races` holds the thing, pawn-kind and death-worker definitions and the class `RaceProperties`;
  - module `RaceFacts` holds the lemmas about them.
- `content_loader.dfy`:
  - module `ModContentLoader` holds the loader, with the C# type parameter as a `ContentKind` value;
  - module `ContentLoaderFacts` holds the lemmas about it.

The game's global definitions become an explicit `DefsOf` parameter:

- the normal and mechanoid flesh types;
- the blood filth definition;
- the bit masks of the food types.

`FoodTypeFlags` is `bv32`, where `None` is 0. The masks are left abstract because the model relies on none of their values.

In `RaceProperties`, the fields the source writes are `var` fields:

- `meatDef`
- `leatherDef`
- `deathActionWorkerInt`
- `cachedAnyPawnKind`

The fields the source only reads are `const`. The derived properties are therefore functions without a frame, and the methods modify exactly the fields the source assigns.

The engine calls the loader makes are function-typed fields of `Engine`:

- reading a text file;
- decoding an image;
- building the URI;
- fetching an audio clip.

Each of these calls returns either a value or the exception it threw.

## Model

| member | source | states |
|---|---|---|
| RaceFacts.HumanlikeIsToolUser | Verse/RaceProperties.cs:132-134 | A humanlike species (intelligence 2 or more) is also a tool user (intelligence 1 or more). |
| RaceFacts.AnimalExactly | Verse/RaceProperties.cs:136-146 | A species is an animal exactly when it is not a tool user and its flesh is not mechanoid; an animal is never humanlike or mechanoid. |
| RaceFacts.FleshTypeDefaults | Verse/RaceProperties.cs:221-235 | The configured flesh type wins, otherwise normal flesh; mechanoid and flesh are complementary; with no configured flesh type, and normal flesh distinct from mechanoid flesh, the species is flesh. |
| RaceFacts.BloodDefDefaults | Verse/RaceProperties.cs:237-251 | The configured blood wins; a flesh species without one bleeds blood filth; the result is null exactly for a mechanoid with no configured blood. |
| RaceFacts.HerdMigrationExactly | Verse/RaceProperties.cs:253-263 | Herd migration is possible exactly for animals whose definition allows it. |
| RaceFacts.NameGeneratorChoice | Verse/RaceProperties.cs:285-292 | Females use the female name generator when there is one; every other case uses the general generator; the result is always one of the two. |
| RaceFacts.EatsExactly | Verse/RaceProperties.cs:316-323 | A species that eats nothing eats no food type; otherwise it eats a food type exactly when the masks share a bit; eating something implies the foods are non-empty. |
| RaceFacts.DietCategoryExactly | Verse/RaceProperties.cs:174-200 | All six diet categories as if-and-only-if conditions: never eats iff no food type; dendrovore iff it eats tree; omnivore or carnivore by meat with or without vegetables, fruit or plants; ovivore by animal products; herbivore otherwise. |
| RaceFacts.ResolvedDietCategoryByRules | Verse/RaceProperties.cs:174-200 | The resolved category equals the first firing rule of an independent priority-ordered rule table, with herbivore as the fallback. |
| RaceFacts.WantEatLevels | Verse/RaceProperties.cs:150-172 | The hunger threshold is 0.3 for never-eating, omnivores and carnivores, 0.4 for ovivores and 0.45 for herbivores and dendrovores, in both directions. |
| RaceFacts.CanEverEatExactly | Verse/RaceProperties.cs:299-314 | A thing can ever be eaten exactly when the species eats, the thing is ingestible with a defined preferability, and the species eats its food type. |
| Races.RaceProperties.GetDeathActionWorker | Verse/RaceProperties.cs:202-219 | An empty cache is filled with a new worker of the configured class, or the simple worker; a filled cache is returned unchanged. |
| RaceFacts.DeathActionWorkerIsStable | Verse/RaceProperties.cs:202-219 | Two accesses in a row return the same object, the one cached. |
| Races.RaceProperties.FirstKindOf | Verse/RaceProperties.cs:265-283 | The result is null iff no registry entry's race is this species; otherwise it is the registry entry at the first index whose race is this species. |
| Races.RaceProperties.GetAnyPawnKind | Verse/RaceProperties.cs:265-283 | With an empty cache the registry is scanned in order and the first matching kind is cached; a non-null cache is returned as is. |
| RaceFacts.AnyPawnKindIsStable | Verse/RaceProperties.cs:265-283 | Starting from an empty cache, the first access returns the first matching kind of its registry; if one was found, a second access returns it whatever its registry holds, and otherwise the second access searches its own registry. |
| Races.RaceProperties.ResolveReferencesSpecial | Verse/RaceProperties.cs:325-335 | Meat and leather definitions are copied from the borrowed species when one is set; otherwise they keep their values. |
| Races.AppendLifeStageOrderErrors | Verse/RaceProperties.cs:355-364 | The nested loops append exactly the pairwise life-stage messages of the specification function. |
| Races.RaceProperties.AppendSourceErrors | Verse/RaceProperties.cs:380-395 | The four borrowed-source checks append their messages, meat before leather, non-pawn before chained; a source without a race throws after its non-pawn check, keeping the messages appended so far and skipping the rest. |
| Races.RaceProperties.ConfigErrors | Verse/RaceProperties.cs:337-400 | The messages and the throw flag equal the scan that runs every check in source order and stops at the first NullReferenceException, keeping the messages yielded before it. |
| RaceFacts.PairErrorsAreUniform | Verse/RaceProperties.cs:357-363 | The inner loop only ever reports the life-stage order message. |
| RaceFacts.OrderErrorsAreUniform | Verse/RaceProperties.cs:355-364 | The nested loops only ever report the life-stage order message. |
| RaceFacts.PairErrorsCount | Verse/RaceProperties.cs:357-363 | The inner loop reports once for each earlier stage whose minimum age is greater. |
| RaceFacts.OrderErrorsCount | Verse/RaceProperties.cs:355-364 | The nested loops report once per inverted pair of life stages below the bound. |
| RaceFacts.LifeStageErrorsCountInversions | Verse/RaceProperties.cs:355-364 | The life-stage check reports the order message exactly once per pair i < j with a greater minimum age at i. |
| RaceFacts.LifeStageErrorsNoneIffAscending | Verse/RaceProperties.cs:355-364 | There is no life-stage message exactly when the minimum ages never decrease; equal ages are allowed. |
| RaceFacts.ConfigErrorsThrowExactly | Verse/RaceProperties.cs:380-395 | The validation pass throws exactly when a borrowed meat or leather source has no race. |
| RaceFacts.ConfigErrorsNoneIff | Verse/RaceProperties.cs:337-400 | A record produces no error and no exception exactly when all sounds are set, and predators eat meat. It also needs ascending life stages, a clean litter curve, and a name generator when the species is nameable. Animals need a defined wildness and a trainability. Borrowed meat and leather sources must be pawns with a race that borrow from no one. |
| RaceFacts.RacelessMeatSourceAbortsScan | Verse/RaceProperties.cs:380-387 | A non-pawn meat source without a race yields the checks before it plus the non-pawn message, then throws; the guarded validator would go on to report the leather and trainability messages. |
| RaceFacts.GuardedSourceChecksAgree | Verse/RaceProperties.cs:380-395 | With the chained checks guarded by a race test, each source reports the same messages the unguarded checks yield before any throw. |
| RaceFacts.GuardedConfigErrorsExtendScan | Verse/RaceProperties.cs:337-400 | What the source yields before a throw is a prefix of the guarded validator's messages, and without a throw the two are equal. |
| RaceFacts.GuardedConfigErrorsNoneIff | Verse/RaceProperties.cs:337-400 | The guarded validator reports nothing exactly when every check holds; a borrowed source without a race only has to be a pawn. |
| Races.RaceProperties.Humanlike | Verse/RaceProperties.cs:132 | No contract of its own; its behaviour is stated by `HumanlikeIsToolUser`. |
| Races.RaceProperties.ToolUser | Verse/RaceProperties.cs:134 | No contract of its own; its behaviour is stated by `HumanlikeIsToolUser` and `AnimalExactly`. |
| Races.RaceProperties.Animal | Verse/RaceProperties.cs:136-146 | No contract of its own; its behaviour is stated by `AnimalExactly`. |
| Races.RaceProperties.EatsFood | Verse/RaceProperties.cs:148 | No contract of its own; its behaviour is stated by `EatsExactly` and `DietCategoryExactly`. |
| Races.RaceProperties.Eats | Verse/RaceProperties.cs:316-323 | No contract of its own; its behaviour is stated by `EatsExactly`. |
| Races.RaceProperties.ResolvedDietCategory | Verse/RaceProperties.cs:174-200 | No contract of its own; its behaviour is stated by `DietCategoryExactly` and `ResolvedDietCategoryByRules`. |
| Races.RaceProperties.FoodLevelPercentageWantEat | Verse/RaceProperties.cs:150-172 | No contract of its own; its behaviour is stated by `WantEatLevels`. |
| Races.RaceProperties.CanEverEat | Verse/RaceProperties.cs:299-314 | No contract of its own; its behaviour is stated by `CanEverEatExactly`. |
| Races.RaceProperties.FleshType | Verse/RaceProperties.cs:221-231 | No contract of its own; its behaviour is stated by `FleshTypeDefaults`. |
| Races.RaceProperties.IsMechanoid | Verse/RaceProperties.cs:233 | No contract of its own; its behaviour is stated by `FleshTypeDefaults` and `BloodDefDefaults`. |
| Races.RaceProperties.IsFlesh | Verse/RaceProperties.cs:235 | No contract of its own; its behaviour is stated by `FleshTypeDefaults` and `AnimalExactly`. |
| Races.RaceProperties.BloodDef | Verse/RaceProperties.cs:237-251 | No contract of its own; its behaviour is stated by `BloodDefDefaults`. |
| Races.RaceProperties.CanDoHerdMigration | Verse/RaceProperties.cs:253-263 | No contract of its own; its behaviour is stated by `HerdMigrationExactly`. |
| Races.RaceProperties.GetNameGenerator | Verse/RaceProperties.cs:285-292 | No contract of its own; its behaviour is stated by `NameGeneratorChoice`. |
| Races.RaceProperties.WorkerKindToCreate | Verse/RaceProperties.cs:206-216 | No contract of its own; it is the worker kind named in the contract of `GetDeathActionWorker`. |
| Races.RaceProperties.MeatSourceScan | Verse/RaceProperties.cs:380-387 | No contract of its own; its behaviour is stated by `ConfigErrorsThrowExactly`, `RacelessMeatSourceAbortsScan` and `GuardedSourceChecksAgree`. |
| Races.RaceProperties.LeatherSourceScan | Verse/RaceProperties.cs:388-395 | No contract of its own; its behaviour is stated by `ConfigErrorsThrowExactly` and `GuardedSourceChecksAgree`. |
| Races.RaceProperties.ExpectedConfigErrors | Verse/RaceProperties.cs:337-400 | No contract of its own; it is the specification of `ConfigErrors`, and its behaviour is stated by `ConfigErrorsThrowExactly` and `ConfigErrorsNoneIff`. |
| Races.RaceProperties.GuardedConfigErrors | Verse/RaceProperties.cs:337-400 | No contract of its own; it is the corrected validator of the finding below, whose behaviour is stated by `GuardedConfigErrorsExtendScan` and `GuardedConfigErrorsNoneIff`. |
| Races.LifeStageOrderErrors | Verse/RaceProperties.cs:355-364 | No contract of its own; its behaviour is stated by `LifeStageErrorsCountInversions` and `LifeStageErrorsNoneIffAscending`. |
| ModContentLoader.IsAcceptableExtension | Verse/ModContentLoader.cs:37-66 | The table search returns true iff the lower-cased extension is in the content type's table; an unknown type accepts nothing. |
| ContentLoaderFacts.ToLowerIdempotent | Verse/ModContentLoader.cs:60 | Lower-casing twice is the same as once. |
| ContentLoaderFacts.AcceptableIgnoresCase | Verse/ModContentLoader.cs:58-64 | An extension is accepted exactly when its lower-cased form is. |
| ContentLoaderFacts.AudioExtensions | Verse/ModContentLoader.cs:13-22 | The audio type accepts exactly .wav, .mp3, .ogg, .xm, .it, .mod and .s3m, in any case. |
| ContentLoaderFacts.TextureExtensions | Verse/ModContentLoader.cs:24-30 | The texture type accepts exactly .png, .jpg, .jpeg and .psd, in any case. |
| ContentLoaderFacts.TextExtensions | Verse/ModContentLoader.cs:32-35 | The string type accepts exactly .txt, in any case. |
| ContentLoaderFacts.UnknownKindAcceptsNothing | Verse/ModContentLoader.cs:50-54 | Any other content type accepts no extension. |
| ContentLoaderFacts.LowerCharDot | Verse/ModContentLoader.cs:60 | Only a dot lower-cases to a dot. |
| ContentLoaderFacts.AcceptableNeedsLeadingDot | Verse/ModContentLoader.cs:13-66 | Every accepted extension is non-empty and starts with a dot. |
| ContentLoaderFacts.BareExtensionRefused | Verse/ModContentLoader.cs:24-66 | "png" without the dot is refused for textures. |
| ContentLoaderFacts.UpperCaseExtensionAccepted | Verse/ModContentLoader.cs:13-66 | ".PNG" is accepted for textures and ".Ogg" for audio. |
| ContentLoaderFacts.ExtensionTablesDisjoint | Verse/ModContentLoader.cs:13-35 | No extension is accepted by two content types. |
| ContentLoaderFacts.OggExactlyForOggSuffix | Verse/ModContentLoader.cs:144-151 | The Ogg Vorbis decoder is chosen exactly when the URI is some string followed by ".ogg"; otherwise WAV. |
| ContentLoaderFacts.AudioTypeIsCaseSensitive | Verse/ModContentLoader.cs:144-151 | ".OGG" and ".mp3" select WAV, while ".ogg" selects Ogg Vorbis. |
| ContentLoaderFacts.StreamingThreshold | Verse/ModContentLoader.cs:153-160 | An existing filesystem file of 307200 bytes is not streamed, one of 307201 bytes is, and a longer file streams whenever a shorter one does. |
| ContentLoaderFacts.StreamingExactly | Verse/ModContentLoader.cs:153-160 | A file streams exactly when it is a filesystem file, it exists and it is longer than 307200 bytes. |
| ContentLoaderFacts.NonFileNeverStreams | Verse/ModContentLoader.cs:153-160 | A virtual file that is not on the filesystem, or does not exist, is never streamed. |
| ContentLoaderFacts.LoadItemKeepsFile | Verse/ModContentLoader.cs:83-142 | Every loaded item records the file it was loaded from. |
| ContentLoaderFacts.TextureNeverNull | Verse/ModContentLoader.cs:83-177 | A texture load never returns null. A missing file gives an item without a texture, a throwing decode gives the placeholder texture, and a successful decode gives the decoded texture. |
| ContentLoaderFacts.NullOnlyAfterException | Verse/ModContentLoader.cs:83-142 | Text loads return null exactly when reading throws; audio loads return null exactly when building the URI or fetching the clip throws; an unknown type always returns null. |
| ModContentLoader.LoadAllForMod | Verse/ModContentLoader.cs:68-81 | The loop yields exactly the specification sequence of loaded entries. |
| ContentLoaderFacts.LoadedEntriesUpTo | Verse/ModContentLoader.cs:72-79 | For every prefix of the map, the yielded entries correspond one to one, in increasing index order, to the entries whose item loads, under their own keys. |
| ContentLoaderFacts.LoadAllForModKeepsLoadedEntriesInOrder | Verse/ModContentLoader.cs:68-81 | The yield is an order-preserving filter of the file map: every entry whose item loads appears, under its own key and with its item, and nothing else appears. |
| ContentLoaderFacts.TexturesLoadEveryEntryUpTo | Verse/ModContentLoader.cs:72-79 | For textures every entry of each prefix is yielded, with its key, in order. |
| ContentLoaderFacts.TexturesLoadEveryEntry | Verse/ModContentLoader.cs:68-81 | For textures nothing is dropped: the yield has one entry per file, with the same keys in the same order. |
| ContentLoaderFacts.UnknownKindLoadsNothing | Verse/ModContentLoader.cs:68-81 | An unknown content type yields nothing. |
| ModContentLoader.Acceptable | Verse/ModContentLoader.cs:37-66 | No contract of its own; its behaviour is stated by `IsAcceptableExtension` and the extension lemmas. |
| ModContentLoader.GetAudioTypeFromURI | Verse/ModContentLoader.cs:144-151 | No contract of its own; its behaviour is stated by `OggExactlyForOggSuffix` and `AudioTypeIsCaseSensitive`. |
| ModContentLoader.ShouldStreamAudioClipFromFile | Verse/ModContentLoader.cs:153-160 | No contract of its own; its behaviour is stated by `StreamingExactly`, `StreamingThreshold` and `NonFileNeverStreams`. |
| ModContentLoader.LoadTexture | Verse/ModContentLoader.cs:162-177 | No contract of its own; its behaviour is stated by `TextureNeverNull`. |
| ModContentLoader.LoadItem | Verse/ModContentLoader.cs:83-142 | No contract of its own; its behaviour is stated by `LoadItemKeepsFile`, `TextureNeverNull` and `NullOnlyAfterException`. |
| ModContentLoader.LoadedEntries | Verse/ModContentLoader.cs:68-81 | No contract of its own; it is the specification of `LoadAllForMod`, and its behaviour is stated by `LoadAllForModKeepsLoadedEntriesInOrder`, `TexturesLoadEveryEntry` and `UnknownKindLoadsNothing`. |

## Left out

- `CompAbilityEffect` (RimWorld/CompAbilityEffect.cs) is not part of this model.
- `SpecialDisplayStats` and `NutritionEatenPerDayExplanation` are left out. They build UI text from stats, translations and floating-point formatting.
- The engine's own work is left out: decoding text, images and audio, the request poll loop with `Thread.Sleep`, `DeepProfiler` and logging. The engine is a parameter whose calls either return a value or throw.
- Naming the loaded clip or texture after the file, and the texture's compression, filter and mipmap settings, are left out. They change engine objects, not the loader's result.
- `ModContentPack.GetAllFilesForMod` and `GenFilePaths.ContentPath` are left out. The mod's file map is a parameter: a sequence of key and file pairs, in the dictionary's enumeration order.
- `GetAudioTypeFromURI` and `ShouldStreamAudioClipFromFile` are private. The second is called nowhere in the file, so it is modelled on its own.
- `CanEverEat(Thing)` is left out. It only forwards `t.def` to `CanEverEat(ThingDef)`.
- Creating the death-action worker by reflection is left out. A configured worker class is recorded as `Reflected(class)`, and the worker itself is not modelled.
- `ToLower` and `EndsWith` are modelled on ASCII only: lower-casing changes `A`–`Z`, and `EndsWith` compares characters exactly. The source uses .NET's culture-sensitive versions.
- Float fields such as `wildness`, `nameOnTameChance`, `minAge` and the hunger thresholds are modelled as exact reals.
- ResolveReferencesSpecial: requires `SourcesHaveRace`, that is, every borrowed meat or leather source has a race. In the source, a meat source without a race throws at line 329 before anything is assigned. A leather source without a race throws at line 333 after `meatDef` has already been copied, leaving the record half-updated. Neither case is represented. `ConfigErrors` does represent its own NullReferenceException, as a throw flag.
- `GetAnyPawnKind`: every registry entry is taken to have a non-null race definition, as the source's `race.race` dereference assumes.
- `FoodLevelPercentageWantEat`: the source's `default` branch throws. The model's `DietCategory` is closed, so that branch cannot be reached.
- `litterSizeCurve.ConfigErrors` belongs to the curve class, which is not part of this model. The litter curve is represented by the error list it reports.
- A thing definition's `ToString` is modelled as its `defName` in the source messages of `ConfigErrors`.
- Fields of `RaceProperties` that the modelled members do not read are left out.
- A definition's name is taken as its identity. `DefRef` compares flesh types, name generators and worker classes by `defName`, where the source compares the definition references themselves (for example `FleshType == FleshTypeDefOf.Mechanoid` at RaceProperties.cs:233). Two distinct definitions with the same name would be equal in the model.

## Findings

| source | as written | input that shows it | evidently intended | confidence | as-written member | corrected member |
|---|---|---|---|---|---|---|
| Verse/RaceProperties.cs:384 | The chained check reads `useMeatFrom.race.useMeatFrom` with no null test on `race` (the same holds for leather at line 392). | A species whose `useMeatFrom` is a non-pawn thing definition, which has no race. The non-pawn message of line 382 is yielded, then a NullReferenceException ends the scan, and the leather and trainability checks never run. | Guard the chained check with `race != null`, so that the non-pawn message is reported and validation continues. | medium, not executed | RaceFacts.RacelessMeatSourceAbortsScan | Races.RaceProperties.GuardedConfigErrors |

`GuardedConfigErrors` is proved by `GuardedConfigErrorsExtendScan` and `GuardedConfigErrorsNoneIff`. `ConfigErrors` itself keeps the behaviour as written.
