# Production planning over the static prototype catalog

This project models, in Dafny, the planning core of a game bot (`python/bot/bot.py`), together with the
offline script that builds the catalog reports (`python/bot/build_dependencies.py`).

The bot loads a static catalog of prototypes in six categories: upgrades, recipes, constructions,
resources, races and units. Each category maps an integer id to a prototype object. Over that catalog,
the core:

- builds the global id/name index;
- answers production-graph queries: which buildings, combat units and resources the bot's race (or
  every race) can make, which recipe produces a target, which building runs a recipe, and what a
  building costs to construct;
- aggregates resource costs;
- resolves a full production plan for a combat unit. The plan holds the (building, recipe) pairs to run
  and the base-resource totals. To get them, the resolver walks recursively through resources,
  recipes and buildings, breaks cycles with a per-path set and expands each building's construction
  cost once.

The report script normalises the JSON document's keys to integers and builds an id -> name index. It
indexes every recipe's inputs, then inverts a producer group (constructions or recipes) into
"entity -> sorted producers with their inputs". It writes three such reports:

- buildings from constructions;
- combat units from recipes;
- resources from recipes.

The files:

| file | module | what it holds |
|---|---|---|
| wrappers.dfy | Wrappers | `Option` |
| collections.dfy | Collections | small set and map facts used by the loops over keys |
| text.dfy | Text | Python's `int(s)`, `str(n)` and ASCII `lower()` |
| catalog.dfy | Catalog | the bot's catalog, the ignore set, the race lookup |
| names.dfy | Names | `ID_TO_NAME` / `NAME_TO_ID`, `id2name`, `name2id` |
| queries.dfy | Queries | the static sets and the recipe, building and construction lookups |
| costs.dfy | Costs | `scale_cost`, `merge_costs`, `get_combat_cost`, `get_build_plan_for_combat` |
| resolver.dfy | Resolver | `get_full_plan_recursive`, as state functions and as the class `Planner` |
| dicts.dfy | Dicts | insertion-ordered int-keyed dicts (`get`, `d[k] = v`, `setdefault(..).append`) |
| json.dfy | JsonValues | JSON values, `obj.get`, `isinstance(v, int)`, `int(v)` |
| dependencies.dfy | Dependencies | the report script's helpers and its module-level indexes |
| buildinfo.dfy | BuildInfo | `build_info_unified` and the three reports |

Each loop of the source is a `method` with a `while` loop, the searches with an early `return`
among them (`get_race_id`, `resolve_group`, `_construction_for_building` and the recipe, building
and construction lookups). Comprehensions, dict and object lookups and Python builtins (`sorted`,
`int`, `str`, `lower`) are functions. Each method is proved equal to a function of its inputs: the method's `ensures` is `r == Spec(...)`, or for the `Planner` class
`State() == Spec(old(State()))`. The properties the source promises are then proved about those
functions as lemmas.

`get_full_plan_recursive` is modelled as three mutually recursive functions: `Expand`,
`BuildingAdded` and `ExpandAll`. They run over the three accumulators. Their termination measure is
lexicographic: first the buildings not yet visited, then the produced ids not yet on the path. The
class `Planner` runs the same closures on mutable fields.

Where the source iterates a Python set, or a dict whose key order it does not control, the model
iterates a list in a fixed order. Contracts then say only that the chosen element matches, and that
the result is empty exactly when nothing matches.

Two consequences of the resolver's code are easy to miss:

- **Construction costs count once, in full.** Take a catalog with ore (resource 1, no recipe), a
  plate (resource 2) made by recipe 10 from 5 ore, a smelter (unit 30, runs recipe 10) built by
  construction 20 from 2 plates, a factory (unit 31, runs recipe 11) built by construction 21 from
  10 ore, and the drone (unit 40) made by recipe 11 from 3 plates. For 2 drones the code records the
  pairs (30, 10) and (31, 11) and a base total of `{1: 50}`: 10 ore for the factory, 30 ore for the
  6 plates the drones need, and 10 ore for the 2 plates of the smelter's own construction cost. That
  cost is expanded with an empty path the first time the smelter is visited (`add_building`,
  `python/bot/bot.py:398-406`), so the plates it needs are made by the smelter's recipe like any
  others.
- **Ignored resources reach the base.** An ignored resource never has a producing recipe
  (`get_recipe_for_resource` skips ignored ids), so `_expand_resource` adds it to `base_resources`.
  `Resolver.IgnoredGoesToBase` states this.

## Model

| member | source | states |
|---|---|---|
| Catalog.Lookup | python/bot/bot.py:88 | `table.get(str(k))` finds something exactly when `k` is a key, and then returns an entry stored under `k` |
| Catalog.KeyListMembers | python/bot/bot.py:81 | a key is listed by `constructions.keys()` exactly when the table has an entry under it |
| Catalog.RaceIdIn | python/bot/bot.py:64-68 | `get_race_id`: an id is returned from the first race that is named RACE_NAME and carries an id; None means no such race carries an id |
| Catalog.GetRaceId | python/bot/bot.py:64-68 | the loop with its early return computes `RaceIdIn` |
| Catalog.RaceDataIsNamedRace | python/bot/bot.py:64-75 | on a well-formed catalog, the bot's race data is missing exactly when no race is named RACE_NAME; when present, it has a name and a constructions list |
| Catalog.Put | python/bot/bot.py:94 | `res[k] = p` adds `k` to the keys, makes `k` hold `p` and leaves every other key unchanged |
| Names.BuildNameIndex | python/bot/bot.py:32-49 | the loop builds exactly the index of every registration, in category order |
| Names.RegisterTable | python/bot/bot.py:34-49 | one table's loop adds exactly its entries' registrations, in table order, to the index built so far |
| Names.RegisterObject | python/bot/bot.py:35-49 | an object without an id or a name registers nothing; otherwise it registers its id under its name with its category's suffix |
| Names.FirstRegistrationWins | python/bot/bot.py:48-49 | `name2id(n)` is defined exactly when some registration used `n`, and it gives the id of the first such registration |
| Names.LastRegistrationWins | python/bot/bot.py:47 | `id2name(i)` is defined exactly when some registration used `i`, and it gives the name of the last such registration |
| Names.TableRegistrationsExact | python/bot/bot.py:36-46 | a table registers (id, name + suffix) exactly for its entries that have both an id and a name |
| Names.RegistrationsInOrder | python/bot/bot.py:35-36 | categories register in the order Upgrade, Recipe ("-recipe"), Construction ("-construction"), Resource, Race, Unit |
| Queries.BuildingOf | python/bot/bot.py:85-94 | a construction contributes unit `k` exactly when it is live, its output is live and equals `k`, and `k` is a unit; the contributed entry is that unit's catalog entry |
| Queries.StaticBuildingsFrom | python/bot/bot.py:84-95 | the building set holds exactly the units some visited construction builds, each with its catalog entry |
| Queries.GetStaticBuildings | python/bot/bot.py:74-95 | the loop of `get_static_buildings` computes the race-scoped or global building set |
| Queries.RaceBuildingsWithinGlobal | python/bot/bot.py:74-95 | the race's buildings are a sub-map of all buildings; no ignored unit, and no unit that only an ignored construction builds, appears in either |
| Queries.Live | python/bot/bot.py:166-168 | keeps exactly the ids that are not ignored |
| Queries.OfferedRecipes | python/bot/bot.py:163-168 | the recipe ids the buildings list are exactly the non-ignored ids that some building lists |
| Queries.AllowedRecipes | python/bot/bot.py:237-241 | the `allowed` recipe ids never include an ignored id |
| Queries.StaticOutputs | python/bot/bot.py:157-222 | `get_static_combat/resources` hold exactly the present, non-ignored (non-ATV for combat) entries that some allowed live recipe outputs, each with its catalog entry |
| Queries.AddOutputs | python/bot/bot.py:179-188 | one recipe's outputs add exactly the kept output ids, each with its catalog entry |
| Queries.CollectOutputs | python/bot/bot.py:172-189 | the nested loops compute `StaticOutputs` |
| Queries.AddRecipeOutputs | python/bot/bot.py:173-188 | after one more recipe, the map holds exactly the kept entries of `target` output by one of the recipes so far, each with its catalog entry |
| Queries.RaceOutputsWithinGlobal | python/bot/bot.py:157-222 | the race's combat units and resources are sub-maps of the global ones |
| Queries.FirstProducer | python/bot/bot.py:243-249 | a found recipe is allowed, live, outputs the target and is the catalog's entry; none means no allowed id produces the target |
| Queries.ProducingRecipe | python/bot/bot.py:233-249 | `get_recipes_for_combat` returns None for an ignored target; otherwise any result is an allowed live recipe with the target among its outputs, and None means no allowed recipe has it |
| Queries.FindProducingRecipe | python/bot/bot.py:289-305 | the early-return loop of `get_recipe_for_resource` computes `ProducingRecipe` |
| Queries.SearchUnits | python/bot/bot.py:257 | every unit searched is a catalog unit |
| Queries.FirstOffering | python/bot/bot.py:258-263 | a found unit is live and lists the recipe; none means no unit does |
| Queries.BuildingsForRecipe | python/bot/bot.py:252-263 | None for an ignored recipe; otherwise any result is a live searched unit listing the recipe, and None means no searched unit lists it |
| Queries.FindOffering | python/bot/bot.py:258-263 | the early-return loop computes `FirstOffering` |
| Queries.FindBuilding | python/bot/bot.py:252-263 | `get_buildings_for_recipe` as run computes `BuildingsForRecipe` |
| Queries.FirstConstruction | python/bot/bot.py:271-279 | finds the first live construction that outputs the building, or none when there is none |
| Queries.BuildingInputs | python/bot/bot.py:266-279 | `{}` for an ignored building or one that no live construction outputs; otherwise the inputs of the first live construction that outputs it |
| Queries.FindBuildingInputs | python/bot/bot.py:266-279 | the early-return loop computes `BuildingInputs` |
| Queries.BuildingFor | python/bot/bot.py:282-286 | a building is returned only when a recipe for the target exists, and it is a searched unit that offers that recipe; when a recipe exists and some searched unit offers it, a building is returned; no recipe means no building |
| Queries.ResourceProducers | python/bot/bot.py:308-313 | at most one producer; empty exactly when no building is found; it is that building, keyed by its id |
| Queries.ConstructionForBuilding | python/bot/bot.py:481-490 | the id of the first construction whose output (0 when absent) is the building; 0 when none matches |
| Queries.FindConstructionForBuilding | python/bot/bot.py:484-490 | the loop with its early return computes `ConstructionForBuilding` |
| Costs.AsCost | python/bot/bot.py:276 | a JSON `inputs` object as a dict: every listed id, with the last quantity listed for it |
| Costs.ScaleCost | python/bot/bot.py:320-321 | the same keys, every quantity multiplied by the factor |
| Costs.UnionKeys | python/bot/bot.py:324-330 | the ids that any argument of `merge_costs` mentions |
| Costs.AddInto | python/bot/bot.py:327-329 | adding one dict gives the union of keys, each mapped to the sum of its two values |
| Costs.MergeCosts | python/bot/bot.py:324-330 | the loop of `merge_costs` computes `Merge` |
| Costs.Get0Merge | python/bot/bot.py:324-330 | each id of the merge maps to the sum of its quantities over all arguments |
| Costs.MergeSnoc | python/bot/bot.py:326-329 | merging one more dict adds its keys and its quantities |
| Costs.MergeOrderIrrelevant | python/bot/bot.py:324-330 | `merge_costs` does not depend on the order of its arguments |
| Costs.MergeSingle | python/bot/bot.py:324-330 | merging one cost returns it |
| Costs.MergePair | python/bot/bot.py:324-330 | `merge_costs(a, b)` maps each key of either argument to the sum of its two values |
| Costs.MergeIdentity | python/bot/bot.py:324-330 | merging nothing is `{}`, and merging with `{}` on either side is the identity |
| Costs.MergeFlattens | python/bot/bot.py:324-330 | merging two merges is merging everything |
| Costs.MergeAssociative | python/bot/bot.py:324-330 | merging is associative |
| Costs.ScaleDistributesOverMerge | python/bot/bot.py:320-330 | scaling a merge is merging the scaled costs |
| Costs.ScaleLaws | python/bot/bot.py:320-321 | scaling by 1 is the identity; scaling twice is scaling by the product |
| Costs.CombatCost | python/bot/bot.py:333-337 | `{}` when no recipe makes the unit; otherwise that recipe's inputs times `qty` |
| Costs.Producers | python/bot/bot.py:349-353 | each cost id that has a producing building, mapped to that building's id, and no other id |
| Costs.FindProducers | python/bot/bot.py:349-353 | the producers loop computes `Producers` |
| Costs.BuildPlanForCombat | python/bot/bot.py:340-365 | "missing_building_or_recipe" exactly when no building is found; otherwise the found building's id and name and the found recipe's id and name, the building offering that recipe, the building's construction cost, the unit cost, their merged total and the producers of the total |
| Costs.GetBuildPlanForCombat | python/bot/bot.py:340-365 | `get_build_plan_for_combat` as run computes `BuildPlanForCombat` |
| Resolver.BaseAdded | python/bot/bot.py:408-410 | `add_base_resource` adds `q` to `rid`'s total (from 0) and changes nothing else |
| Resolver.Expand | python/bot/bot.py:412-432 | `_expand_resource` only grows the accumulators and keeps totals positive; `q <= 0` changes nothing; a resource on the path, or without a recipe, or without a building, adds exactly `q` to the base |
| Resolver.BuildingAdded | python/bot/bot.py:398-406 | `add_building` records the pair when a recipe is given and marks the building visited; for an already visited building it changes nothing else |
| Resolver.ExpandAll | python/bot/bot.py:431-432 | expanding a list of inputs only grows the accumulators and keeps totals positive |
| Resolver.ExpandSound | python/bot/bot.py:412-432 | `_expand_resource` keeps soundness: every recorded pair is an allowed, live, present recipe with a searched building that runs it and is visited, and every visited id is a unit |
| Resolver.BuildingAddedSound | python/bot/bot.py:398-406 | `add_building` keeps the same soundness invariant |
| Resolver.ExpandAllSound | python/bot/bot.py:405-406 | the loop over inputs keeps the same soundness invariant |
| Resolver.FullPlanState | python/bot/bot.py:392-440 | the resolver's final accumulators have only positive base totals |
| Resolver.FullPlanSound | python/bot/bot.py:392-440 | the final plan is sound: each (building, recipe) pair is an allowed live recipe run by a searched building |
| Resolver.FullPlanHasRoot | python/bot/bot.py:434-440 | the root building is recorded with the unit's recipe; with neither a building nor a recipe, the plan is empty |
| Resolver.IgnoredGoesToBase | python/bot/bot.py:412-422 | a positive quantity of an ignored resource goes to the base totals unchanged |
| Resolver.InsertPair | python/bot/bot.py:447 | inserting into a strictly sorted pair list keeps it strictly sorted and adds exactly the new pair |
| Resolver.SortPairs | python/bot/bot.py:447 | `sorted(list(pairs))` is strictly sorted by (building, recipe) and holds exactly the pairs |
| Resolver.SortedUnique | python/bot/bot.py:447 | two strictly sorted lists with the same elements are equal, so the sorted list is determined by the set |
| Resolver.Planner.constructor | python/bot/bot.py:394-396 | the three accumulators start empty |
| Resolver.Planner.AddBaseResource | python/bot/bot.py:408-410 | the closure's new state is `BaseAdded` of the old one |
| Resolver.Planner.AddBuilding | python/bot/bot.py:398-406 | the closure's new state is `BuildingAdded` of the old one |
| Resolver.Planner.ExpandResource | python/bot/bot.py:412-432 | the closure's new state is `Expand` of the old one |
| Resolver.Planner.ExpandInputs | python/bot/bot.py:431-432 | the inputs loop's new state is `ExpandAll` of the old one |
| Resolver.Planner.ExpandInput | python/bot/bot.py:431-432 | one iteration moves the state exactly one input further along `ExpandAll`, scaling its quantity by the recipe multiple |
| Resolver.GetFullPlanRecursive | python/bot/bot.py:392-449 | the combat id and name, the root building's id and name; `buildings` strictly sorted and holding exactly the final pairs; `base_resources` is the final base |
| Dicts.DKeyListMembers | python/bot/build_dependencies.py:116 | a key is listed by `d.keys()` exactly when `d` has an item under it |
| Dicts.DGet | python/bot/build_dependencies.py:141-143 | `d.get(k)` is present exactly when `k` is a key, and then holds a value stored under `k` |
| Dicts.DPutSpec | python/bot/build_dependencies.py:54 | after `d[k] = v`, `k` holds `v`, every other key is unchanged, and a new key goes last |
| Dicts.FromPairsKeys | python/bot/build_dependencies.py:26-32 | after a sequence of assignments, a key is present exactly when some assignment used it |
| Dicts.FromPairsLastWins | python/bot/build_dependencies.py:26-32 | after a sequence of assignments, a key holds the value of the last assignment to it |
| Dicts.DAppend | python/bot/build_dependencies.py:111 | `setdefault(k, []).append(x)` appends `x` to `k`'s list (from empty) and changes no other key |
| JsonValues.Field | python/bot/build_dependencies.py:30 | `obj.get(name)` returns a value stored under `name`, and None exactly when there is none |
| JsonValues.IntOfRoundTrip | python/bot/build_dependencies.py:74 | `int(v)` gives back a number it is handed, and reads the decimal text `str(n)` back as `n` |
| Text.IntToStringRoundTrip | python/bot/build_dependencies.py:172 | `int(str(n)) == n` |
| Text.Lower | python/bot/build_dependencies.py:39-41 | ASCII `lower()`: the same length, with upper-case letters mapped to lower case |
| Dependencies.GroupItems | python/bot/build_dependencies.py:91 | `norm.get(g, {})`: `{}` for a missing group, otherwise the group's entries |
| Dependencies.FirstFolded | python/bot/build_dependencies.py:40-42 | the first group whose lower-cased name matches; none exactly when no group's does |
| Dependencies.FirstFoldedAt | python/bot/build_dependencies.py:40-42 | the position of the first group whose lower-cased name matches: every earlier one differs, and it is past the end only when none matches |
| Dependencies.FindFolded | python/bot/build_dependencies.py:40-42 | the loop with its early return computes `FirstFolded` |
| Dependencies.ResolveGroup | python/bot/build_dependencies.py:36-43 | the name itself when it is a group; else the first case-insensitive match; None exactly when no group matches |
| Dependencies.FindGroup | python/bot/build_dependencies.py:36-43 | `resolve_group` as run, membership test then loop, computes `ResolveGroup` |
| Dependencies.NormaliseIntKeys | python/bot/build_dependencies.py:47-55 | the loop computes `IntKeyed` |
| Dependencies.IntKeyedKeys | python/bot/build_dependencies.py:47-55 | a key is kept exactly when some original key converts to it |
| Dependencies.IntKeyedLastWins | python/bot/build_dependencies.py:47-55 | a kept key holds the value of the last original key that converts to it |
| Dependencies.Counts | python/bot/build_dependencies.py:74 | `{k: int(v)}` exists exactly when every value converts; it keeps the keys and their order and converts each value |
| Dependencies.RegisterGroup | python/bot/build_dependencies.py:28-32 | one group's loop performs exactly that group's name registrations |
| Dependencies.RegisterEntry | python/bot/build_dependencies.py:29-32 | one entry registers (id, (name, group)) exactly when it is an object whose `name` is a string |
| Dependencies.BuildIdToName | python/bot/build_dependencies.py:26-32 | the nested loops compute `IdNames` |
| Dependencies.GroupNameRegsExact | python/bot/build_dependencies.py:28-32 | a group registers (id, (name, group)) exactly for its object entries whose `name` is a string |
| Dependencies.GetNameFallback | python/bot/build_dependencies.py:171-172 | an id without any registration is named `str(id)`, which converts back to the id |
| Dependencies.GetNameLastWins | python/bot/build_dependencies.py:171-172 | a registered id is named by its last registration |
| Dependencies.PrettyInputs | python/bot/build_dependencies.py:58-63 | one entry per input, in input order, with its id, its name and its count |
| Dependencies.ToPrettyInputs | python/bot/build_dependencies.py:58-63 | the loop of `to_pretty_inputs` computes `PrettyInputs` |
| Dependencies.IndexRecipeInputs | python/bot/build_dependencies.py:68-76 | the loop over the recipe group computes `RecipeInputsFrom`, failing where an input count does not convert |
| Dependencies.BuildRecipeInputs | python/bot/build_dependencies.py:66-76 | the `recipe_inputs` index reads the group `resolve_group("Recipe") or "Recipe"` |
| Dependencies.RecipeInputsKeys | python/bot/build_dependencies.py:66-76 | `recipe_inputs` has exactly the ids of the recipe group's object entries |
| Dependencies.RecipeInputsLastWins | python/bot/build_dependencies.py:66-76 | an id holds the converted inputs of its last object entry (`{}` when `inputs` is not an object) |
| BuildInfo.OutIdsExact | python/bot/build_dependencies.py:103-109 | a producer's output ids are exactly its int `output` and the int-convertible keys of its `outputs` object |
| BuildInfo.AppendAllSpec | python/bot/build_dependencies.py:110-111 | after the outputs loop, the keys gain exactly the output ids, and the producer is added to each of their lists |
| BuildInfo.ScanFromFails | python/bot/build_dependencies.py:91-98 | the producer scan succeeds exactly when every object's inputs convert |
| BuildInfo.ScanFromKeys | python/bot/build_dependencies.py:103-111 | `produced_by_map` has exactly the ids that some producer object outputs |
| BuildInfo.ScanFromProducers | python/bot/build_dependencies.py:110-111 | a producer id appears in an output's list exactly when that producer outputs it |
| BuildInfo.ScanFromInputsKeys | python/bot/build_dependencies.py:99-101 | `producer_inputs_map` has exactly the producers whose converted inputs are non-empty |
| BuildInfo.ScanFromInputsLastWins | python/bot/build_dependencies.py:99-101 | a producer's entry holds the inputs of its last entry that has non-empty inputs |
| BuildInfo.AppendProducer | python/bot/build_dependencies.py:110-111 | the outputs loop computes `AppendAll` |
| BuildInfo.ReadProducer | python/bot/build_dependencies.py:95-109 | reads a producer's converted inputs and its output ids |
| BuildInfo.ScanProducers | python/bot/build_dependencies.py:91-113 | the producer loop computes `ScanFrom`, failing where inputs do not convert |
| BuildInfo.RecipeIdsOf | python/bot/build_dependencies.py:124-129 | keeps exactly the listed recipes that convert with `int()` |
| BuildInfo.ConvertRecipes | python/bot/build_dependencies.py:124-129 | the loop with `continue` computes `RecipeIdsOf` |
| BuildInfo.CollectOwnRecipes | python/bot/build_dependencies.py:119-131 | the loop computes `OwnRecipesFrom` |
| BuildInfo.OwnRecipesKeys | python/bot/build_dependencies.py:119-131 | `own_recipes` has exactly the entities that list at least one int-convertible recipe |
| BuildInfo.OwnRecipesLastWins | python/bot/build_dependencies.py:119-131 | an entity's entry holds the converted list of its last entry that lists any |
| BuildInfo.InsertInt | python/bot/build_dependencies.py:139 | inserting into an ascending list keeps it ascending and adds exactly the new id |
| BuildInfo.SortedSet | python/bot/build_dependencies.py:139 | `sorted(set(xs))` is strictly ascending and has exactly the elements of `xs` |
| BuildInfo.IncreasingUnique | python/bot/build_dependencies.py:116 | two strictly ascending lists with the same elements are equal |
| BuildInfo.Common | python/bot/build_dependencies.py:116 | the intersection of the entity ids and the produced ids |
| BuildInfo.RequirementsIds | python/bot/build_dependencies.py:139-160 | the requirements carry exactly the producer ids, in the given order, and each is the requirement for its own id |
| BuildInfo.RefIdsOfRefs | python/bot/build_dependencies.py:164-166 | the `{id, name}` list carries exactly the given recipe ids, in order, each named by `get_name` |
| BuildInfo.InfoOfKeys | python/bot/build_dependencies.py:133-167 | the report's keys are exactly the candidates, in order, each holding its own node; ascending candidates give no repeated key |
| BuildInfo.BuildInfoUnified | python/bot/build_dependencies.py:80-84 | `{}` when either group does not resolve |
| BuildInfo.BuildRequirements | python/bot/build_dependencies.py:139-160 | the requirements loop computes `Requirements` |
| BuildInfo.BuildRequirement | python/bot/build_dependencies.py:140-159 | one requirement is `RequirementFor` the producer: its name, its own inputs or else the recipe's, and `placeOver` only when it is an int |
| BuildInfo.BuildNode | python/bot/build_dependencies.py:134-167 | the loop body computes `NodeFor` |
| BuildInfo.BuildNodes | python/bot/build_dependencies.py:133-168 | the candidate loop computes `InfoOf` |
| BuildInfo.GetBuildInfoUnified | python/bot/build_dependencies.py:80-168 | `build_info_unified` as run computes `BuildInfoUnified` |
| BuildInfo.BuildReports | python/bot/build_dependencies.py:176-178 | the three reports, for (Unit, Construction), (Unit, Recipe) and (Resource, Recipe) |
| BuildInfo.InfoKeys | python/bot/build_dependencies.py:103-134 | the report's ids ascend and are exactly the entity ids that some producer outputs |
| BuildInfo.InfoRequirements | python/bot/build_dependencies.py:135-139 | a node is named by `get_name`; its requirement ids ascend and are exactly the distinct producers of the entity |
| BuildInfo.RequirementSources | python/bot/build_dependencies.py:140-159 | a requirement's inputs are the producer's own last non-empty inputs, else its `recipe_inputs` entry; `placeOver` is present exactly when the producer object under the id holds an int there, and it is that int |
| BuildInfo.InfoRecipes | python/bot/build_dependencies.py:162-166 | `recipes` is present exactly when the entity lists some int-convertible recipe; it then ascends, holds exactly that list's ids, and names each one |

## Left out

- Live game glue is not part of this model: force lookup, entity iteration, commands, placement, the
  event loop and the `Bot` class. These are calls into the game library, clocks and randomness.
- The dynamic attribute probing of external handles (`_coerce_int`, `recipe_id_of`, `_as_int_id`,
  `_is_valid_position`) is left out. Ids are plain integers here, and `id2name` takes an integer.
- The `print_*` functions, the logging and the report script's final `print` lines are left out,
  because they are console output.
- File I/O is left out: loading `prototypes.json` in both programs and writing the three report files.
  The catalog and the normalised document are inputs.
- The report script's fallback normalisation for groups whose keys do not all convert
  (build_dependencies.py:16-23) is left out. The normalised document is an input with integer keys.
- `inputs_candidates` (build_dependencies.py:88, 113) is written but never read, so it is not kept.
- JSON floating-point numbers are not modelled. A JSON bool is an int (Python's `isinstance`), with
  value 0 or 1, and the output spelling of such a value is not modelled.
- A JSON object is assumed to have distinct keys. `lower()` is ASCII-only, and Python's `int()` is
  modelled for ASCII strings only.
- A Python exception that ends the report script is modelled as `None`. This happens where an
  `inputs` count does not convert with `int()`.
- In the bot's catalog an entry's `id` is read as its table key; `WellFormed` makes the two agree.
  A recipe found without an `id` field is not modelled.
- Catalog.RaceIdIn: a race named RACE_NAME without an `id` is skipped, where `get_race_id` would
  raise KeyError on `race_data["id"]`. The two agree on a `WellFormed` catalog, where every race has an id.
- Catalog keys and listed ids are assumed to be in canonical decimal spelling (`str(int(s)) == s`).
  The bot looks entries up with `get(str(k))` and tests `str(id) in r.get("outputs", {})`
  (bot.py:75, 88, 92, 246-247, 302-303). The model matches these as integers, so a key spelt "07"
  would be found by the model but not by the bot. The catalog's field values (`id`, `output`, the
  `inputs` quantities, the `recipes` and `outputs` ids) are likewise assumed to be well-typed ints.
- Python set iteration (the allowed recipe set, the construction id sets) is modelled as list order.
  Contracts do not say which of several matches a lookup picks.
- Resolver.IgnoredGoesToBase: it holds by the contracts of the lookups alone, so its body is empty.
- Queries.AllowedRecipes: states only that no ignored id is allowed. Membership is stated by
  `Queries.OfferedRecipes` and `Queries.Live`, of which it is made.
