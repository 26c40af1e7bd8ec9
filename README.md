# AvianHaven core, modelled in Dafny

AvianHaven is a bird-watching garden game built on the Bevy engine. This
project models the rule logic at its core:

- **The bird decision pipeline.**
  - Utility discovery keeps the best-scoring object in range for each action.
  - The behaviour tree is a pure rule cascade that decides a bird's state.
  - Target selection, the arrival rule, the eating, drinking, bathing, fleeing and resting ticks, and need decay complete the pipeline.
- **Smart objects.**
  - Tables: decay rates and duration ranges of actions, shelter, perch and water tables, seasonal modifiers.
  - Per-frame systems: perch, shelter, water and season, which update occupants and levels in place.
  - The effective-utility formula, catalog lookups and action parsing.
  - The object-definition validator of the creation kit.
  - The registry of catalog and workshop objects and its search.
- **Night and day.** The nocturnal activity cycle, owl hunting energy and its cooldown, roost selection with first-wins ties, dawn departure, roost occupancy and night migration.
- **The shop.** Catalog tables (price, actions, utility, range), purchases, placement and the catalog's input handling.
- **Small stateful structures.**
  - The notification queue with its concurrency cap.
  - The debug console's message log, text editing, history and command checks.
  - The tutorial step chain and progress.
  - The season and day clock with the seasonal species table.
  - Achievements, photo challenges, the Steam achievement and statistics bookkeeping.
  - The key-binding table.
- **Hazards.** Storm detection and the fear, shelter, temperature and stress updates of the advanced weather, plus predators: hunting, prey responses, alarm calls and visual detection.

Conventions:
- Pure code becomes datatypes, functions and lemmas. Code that changes state in place becomes classes whose methods carry `modifies` clauses and are proved against specification functions.
- `f32` is modelled as `real`, and the thresholds are exact.
- Entities are opaque ids (`Entity = nat`). Hash maps are Dafny `map`s, or association lists where the game iterates them in order.
- Inputs to the model, not computed by it:
  - Euclidean distances between birds and objects;
  - Bevy timers, as a "finished" flag;
  - random draws, as numbers in [0, 1);
  - the frame's `delta` time, the clock hour and the sine-based temperature.

## Model

| member | source | states |
|---|---|---|
| BehaviorTree.Evaluate | src/bird_ai/bt.rs:3-41 | fear above 0.7 gives Fleeing whatever the other needs; MovingToTarget exactly when a critical or moderate need or bathing rule finds its action cached; Resting exactly when no critical rule fires and energy is below 0.3; Wandering otherwise, and always when fear ≤ 0.7, energy ≥ 0.3 and no Eat/Drink/Bathe is cached |
| BirdAiSystems.Score | src/bird_ai/systems.rs:85-87 | an in-range object scores between 0 and its base utility |
| BirdAiSystems.DiscoverPrefix | src/bird_ai/systems.rs:83-99 | the cache after one more object is the previous cache with that object offered to it |
| BirdAiSystems.DiscoverKeys | src/bird_ai/systems.rs:81-99 | after a pass an action is cached exactly when some object within its range offers it |
| BirdAiSystems.ExtendFirstBest | src/bird_ai/systems.rs:91-94 | a later object that does not score strictly higher leaves the earlier best in place |
| BirdAiSystems.LastIsFirstBest | src/bird_ai/systems.rs:91-97 | a later object that beats every earlier offer takes the entry |
| BirdAiSystems.LastBeatsFirstBest | src/bird_ai/systems.rs:84-97 | an object scoring strictly above the earlier first best offer becomes the first best |
| BirdAiSystems.StepFromCached | src/bird_ai/systems.rs:84-97 | after one more object, an action the earlier objects cached is still cached from a first best offer |
| BirdAiSystems.StepFromFresh | src/bird_ai/systems.rs:84-97 | an action first cached by the last object is cached from it, and it is the first best offer |
| BirdAiSystems.DiscoverSelectsFirstBest | src/bird_ai/systems.rs:84-97 | each cached entry is the first of the highest-scoring in-range offers of its action (ties keep the earlier object) |
| BirdAiSystems.FiringNeed | src/bird_ai/bt.rs:13-37 | the first need rule of the tree that fires, in the tree's order (critical hunger, critical thirst, moderate hunger, moderate thirst, bathing): Eat, Drink and Bathe are each named exactly when their rule is the first to fire; a firing rule sends a calm bird to MovingToTarget unless low energy rests it first; whenever the tree answers MovingToTarget a rule fired |
| BirdAiSystems.SelectTargetAsWritten | src/bird_ai/systems.rs:114-125 | the target as written: the Eat source if hunger > 0.5, else the Drink source if thirst > 0.5, else the Bathe source, each present exactly when that action is cached |
| BirdAiSystems.AsWrittenTargetMissing | src/bird_ai/systems.rs:114-125 | a bird with hunger and thirst 0.6 and only water cached is sent to MovingToTarget with no target |
| BirdAiSystems.SelectTarget | src/bird_ai/systems.rs:114-125 | the corrected target: the cached source of the action whose rule fired first (food under critical hunger, or under moderate hunger without a critical thirst; water under critical thirst without critical hunger, or moderate thirst without hunger; the bath otherwise); none exactly when no need rule fires, so whenever the tree chooses MovingToTarget a target exists (corrected form, Findings row 1) |
| BirdAiSystems.SelectTargetAgreesOnHunger | src/bird_ai/systems.rs:119-120 | for a hungry bird with food cached and no overriding critical thirst, the corrected and the written choice agree on the food source |
| BirdAiSystems.ArrivalState | src/bird_ai/systems.rs:157-163 | Eating iff hunger > thirst; Drinking iff not and thirst > 0.3; Bathing otherwise |
| BirdAiSystems.Bird.constructor | src/bird_ai/components.rs:1-176 | a new bird wanders with an empty cache and no target |
| BirdAiSystems.Bird.DiscoverUtilities | src/bird_ai/systems.rs:80-99 | one bird's cache becomes the pass over all objects from an empty map; its state is untouched |
| BirdAiSystems.Bird.RunBehaviorTree | src/bird_ai/systems.rs:111-129 | the new state is the tree's answer; on MovingToTarget the target is the cached source of the first rule of the tree that fired (SelectTarget, FiringNeed), otherwise the blackboard is unchanged (corrected form, Findings row 1) |
| BirdAiSystems.Bird.MoveToTarget | src/bird_ai/systems.rs:149-168 | on arrival at an existing target the state becomes ArrivalState; no target, a missing target or no arrival leaves it unchanged |
| BirdAiSystems.Bird.EatingTick | src/bird_ai/systems.rs:175-184 | an eating bird's hunger falls by 0.5·dt but not below 0, and it wanders once hunger is below 0.1; other states are untouched; needs stay in range |
| BirdAiSystems.Bird.DrinkingTick | src/bird_ai/systems.rs:191-200 | thirst falls by 0.6·dt, not below 0; Wandering once below 0.1 |
| BirdAiSystems.Bird.BathingTick | src/bird_ai/systems.rs:207-217 | energy rises by 0.3·dt, capped at 1; Wandering once above 0.8 |
| BirdAiSystems.Bird.FleeingTick | src/bird_ai/systems.rs:224-234 | a fleeing bird with a perceived threat and fear below 0.3 wanders; nothing else changes |
| BirdAiSystems.Bird.RestingTick | src/bird_ai/systems.rs:241-250 | energy rises by 0.4·dt, capped at 1; Wandering once above 0.7 |
| BirdAiSystems.Bird.DecayNeeds | src/bird_ai/systems.rs:257-269 | hunger and thirst end ≤ 1, energy ≥ 0, non-negative fear never grows (×0.95), and in-range needs stay in range |
| BirdAiSystems.WorldUtilityQuery | src/bird_ai/systems.rs:71-101 | nothing changes unless the timer finished; then every bird's cache is rebuilt from empty over the objects it sees, states untouched |
| BirdAiSystems.BehaviorTreeSystem | src/bird_ai/systems.rs:103-130 | nothing changes unless the timer finished; then every bird takes one arbitration step: its state is the tree's answer and its blackboard is TreeTarget of its old blackboard (corrected form, Findings row 1) |
| BirdAiSystems.TreeTarget | src/bird_ai/systems.rs:111-129 | when the tree answers MovingToTarget the blackboard's target becomes SelectTarget of it and is set; for any other answer the blackboard is unchanged (corrected form, Findings row 1) |
| SmartObjects.PerchBaseUtility | src/smart_objects.rs:46-54 | every perch type's appeal lies in [0.4, 0.8], the maximum exactly for a branch |
| SmartObjects.ShelterBaseCapacity | src/smart_objects.rs:88-96 | every shelter type holds between 2 and 8 birds |
| SmartObjects.ShelterWeatherProtection | src/smart_objects.rs:98-106 | protection lies in [0.6, 0.95], the maximum exactly for a bird house |
| SmartObjects.WaterBaseUtility | src/smart_objects.rs:140-148 | every water type's appeal lies in [0.6, 0.9] |
| SmartObjects.WaterProvidesActions | src/smart_objects.rs:150-158 | every water feature offers Drink first; Bathe is offered exactly when it is neither a pond nor a dripping tap; nothing else is offered |
| SmartObjects.UtilityDecayRate | src/smart_objects.rs:175-195 | every action decays at a rate in (0, 0.12]; the fastest exactly for Challenge, the slowest (0.01) exactly for Nest |
| SmartObjects.DurationRange | src/smart_objects.rs:197-217 | every action's duration has 0 < min < max, within 2 to 180 seconds |
| SmartObjects.FirstPercher | src/smart_objects.rs:474-484 | the occupant is the first bird in query order that rests within 30 units, and None exactly when there is no such bird |
| SmartObjects.Admitted | src/smart_objects.rs:496-510 | a shelter pass never admits more birds than the capacity or than were seen |
| SmartObjects.AdmittedStep | src/smart_objects.rs:496-510 | one more bird is admitted exactly when it can shelter and the shelter still has room; the earlier occupants stay in order |
| SmartObjects.AdmittedIsCappedEligible | src/smart_objects.rs:496-510 | the pass admits min(capacity, number of eligible seekers), and only seekers within 80 units |
| SmartObjects.PerchingSpot.constructor | src/smart_objects.rs:29-34 | a new perch has its type's base appeal and no occupant |
| SmartObjects.PerchingSpot.UpdateOccupant | src/smart_objects.rs:472-487 | the occupant becomes FirstPercher of the birds; comfort is unchanged |
| SmartObjects.PerchingSpot.ApplySeason | src/smart_objects.rs:673-681 | comfort becomes the season's value for the perch type; the occupant is unchanged |
| SmartObjects.PercherIsFirst | src/smart_objects.rs:476-483 | when the birds before index i are not on the perch, bird i (if on it) is the occupant; with none on it the occupant is None |
| SmartObjects.SeasonalComfort | src/smart_objects.rs:674-680 | seasonal comfort lies in [0.3, 0.9]: 0.9 in spring, the base value in fall, below the base for a wire in winter |
| SmartObjects.ShelterSeasonModifier | src/smart_objects.rs:685-690 | the modifier lies in [0.8, 1.3] and is above 1 exactly in winter and fall |
| SmartObjects.SeasonalProtectionRange | src/smart_objects.rs:684-693 | seasonal protection lies in [0.48, 1.235] and exceeds 1 for a bird house in winter |
| SmartObjects.Shelter.constructor | src/smart_objects.rs:70-77 | a new shelter has its type's capacity and protection and no occupants |
| SmartObjects.Shelter.UpdateOccupants | src/smart_objects.rs:495-511 | the occupant list is rebuilt from empty as Admitted and never exceeds the capacity |
| SmartObjects.Shelter.ApplySeason | src/smart_objects.rs:684-693 | protection is recomputed from the table times the modifier, never accumulated; occupants unchanged |
| SmartObjects.WaterFeature.constructor | src/smart_objects.rs:122-128 | a new feature holds the given type, level, cleanliness and temperature |
| SmartObjects.WaterFeature.WeatherTick | src/smart_objects.rs:519-534 | rain raises level and cleanliness, capped at 1; clear skies lower the level, not below 0.2; other weather leaves both alone; temperature moves 5% toward 15 and never overshoots |
| SmartObjects.WaterFeature.ApplySeason | src/smart_objects.rs:696-717 | the feature takes the season's temperature and level (ponds and creeks lose 20% in winter); cleanliness unchanged |
| SmartObjects.SeasonalWaterTemperature | src/smart_objects.rs:697-716 | water temperature lies in [5, 25], 5 exactly in winter and 25 exactly in summer |
| SmartObjects.PerchInteractionSystem | src/smart_objects.rs:467-488 | every perch's occupant becomes the first bird on it; comfort unchanged |
| SmartObjects.ShelterUsageSystem | src/smart_objects.rs:490-512 | every shelter's occupants are rebuilt as Admitted; protection unchanged |
| SmartObjects.WaterFeatureSystem | src/smart_objects.rs:514-535 | every feature takes its own weather tick: level and cleanliness become LevelAfterWeather and CleanlinessAfterWeather of their old values, temperature relaxes 5% toward 15; rain keeps both at most 1, clear skies keep the level at least 0.2 |
| SmartObjects.LevelAfterWeather | src/smart_objects.rs:522-529 | rain raises the level but never above 1 (nor below a valid old level), clear skies lower it but never below 0.2 (nor above the old level), any other weather leaves it as it was |
| SmartObjects.CleanlinessAfterWeather | src/smart_objects.rs:522-525 | only rain changes cleanliness: it rises but never above 1; any other weather leaves it as it was |
| SmartObjects.SeasonalObjectSystem | src/smart_objects.rs:664-720 | every perch takes the season's comfort, every shelter its seasonal protection, every water feature the season's temperature and SeasonalWaterLevel of its old level; occupants and cleanliness are kept |
| SmartObjects.SeasonalWaterLevel | src/smart_objects.rs:696-717 | spring fills every feature (1.0), fall sets 0.9, summer leaves the level, winter lowers only ponds and creeks (never raising a non-negative level) |
| SmartObjects.SeasonPerches | src/smart_objects.rs:673-681 | every perch takes the season's comfort for its type; occupants are kept |
| SmartObjects.SeasonShelters | src/smart_objects.rs:684-693 | every shelter's protection becomes its type's protection times the season modifier; occupants are kept |
| SmartObjects.SeasonWaters | src/smart_objects.rs:696-717 | every feature takes the season's temperature and SeasonalWaterLevel of its old level; cleanliness is kept |
| ObjectConfig.GetDefinition | src/smart_objects/config.rs:127-129 | no definition is returned iff no catalog item has the id; a returned definition is a catalog item with that id |
| ObjectConfig.DefinitionsByCategory | src/smart_objects/config.rs:131-133 | a definition is listed iff it is in the catalog and has the category |
| ObjectConfig.UnlockedItems | src/smart_objects/config.rs:135-137 | a definition is listed iff it is in the catalog and its unlock level is at most the player's level |
| ObjectConfig.UnlockedItemsMonotone | src/smart_objects/config.rs:135-137 | raising the player's level never hides an item that was unlocked |
| ObjectConfig.ParseBirdAction | src/smart_objects/config.rs:148-169 | parsing succeeds exactly on the written name of an action and returns that action (round trip with the action names) |
| Collections.FilterMapMembers | src/smart_objects/config.rs:142-146 | filter_map keeps a value iff the parser yields it for some element |
| Collections.FilterMapAppend | src/smart_objects/config.rs:142-146 | filter_map of two concatenated lists is the concatenation of their results, so order is kept |
| Collections.FilterMapAll | src/smart_objects/config.rs:142-146 | when every element parses, filter_map yields exactly the parsed values, one for one and in order |
| ObjectConfig.BirdActions | src/smart_objects/config.rs:142-146 | at most one action per name |
| ObjectConfig.BirdActionsMembers | src/smart_objects/config.rs:142-169 | an action is listed exactly when its name is among the provided names; unknown names are dropped |
| ObjectConfig.BirdActionsAppend | src/smart_objects/config.rs:142-146 | parsing keeps the order of the names: the actions of two concatenated lists are the concatenated actions |
| ObjectConfig.BirdActionsOfNames | src/smart_objects/config.rs:142-169 | a list of written-out action names parses back to exactly those actions |
| ObjectConfig.ParseBirdSpecies | src/smart_objects/config.rs:178-195 | a parsed name is always the written name of the species it yields |
| ObjectConfig.ParseBirdSpeciesIff | src/smart_objects/config.rs:178-195 | a name parses to a species iff it is that species' written name |
| ObjectConfig.SpeciesNameRoundTrip | src/smart_objects/config.rs:178-195 | a written species name parses back to its species; the eighteen species without a written name are never parsed |
| ObjectConfig.AttractedSpecies | src/smart_objects/config.rs:172-176 | at most one species per attracted name |
| ObjectConfig.AttractedSpeciesMembers | src/smart_objects/config.rs:172-195 | a species is attracted iff it has a written name that is among the attracted-species names |
| ObjectConfig.SeasonalMultiplier | src/smart_objects/config.rs:207-209 | the season's multiplier when the definition names one, otherwise no change (1.0) |
| ObjectConfig.UserFactor | src/smart_objects/config.rs:216-219 | no penalty with no users; with users the factor lies in [0.1, 0.8] and is 0.1 from five users on |
| ObjectConfig.DistanceFactor | src/smart_objects/config.rs:222-223 | never negative; zero at or beyond the interaction range; at most 1 within it |
| ObjectConfig.EffectiveUtility | src/smart_objects/config.rs:198-226 | effective utility is never negative and is zero for a bird at or beyond the interaction range |
| ObjectConfig.UserFactorDecreasing | src/smart_objects/config.rs:216-219 | one more user never raises the crowding factor |
| ObjectConfig.ClampedProductMonotone | src/smart_objects/config.rs:216-225 | scaling by a smaller non-negative factor never raises the clamped utility |
| ObjectConfig.EffectiveUtilityFallsWithUsers | src/smart_objects/config.rs:198-226 | one more current user never makes an object more attractive |
| ObjectConfig.SpeciesPreference | src/smart_objects/config.rs:229-231 | the stored preference for a listed species, 1.0 for any other |
| ObjectConfig.CanAccommodateUser | src/smart_objects/config.rs:234-236 | another user fits iff the current users are fewer than the maximum; an object with maximum 0 never accepts one |
| CreationKit.DefaultConstraints | src/smart_objects/creation_kit.rs:240-263 | the default price, utility, range and user limits, nine allowed actions (Eat and Shelter in, Flock and HoverFeed out) and five categories |
| CreationKit.Failures | src/smart_objects/creation_kit.rs:269-310 | at most one error per check |
| CreationKit.FailuresMembers | src/smart_objects/creation_kit.rs:269-310 | an error is reported iff some check that reports it failed |
| CreationKit.FailuresStep | src/smart_objects/creation_kit.rs:269-310 | each further check appends its error exactly when it fails, keeping the order of the checks |
| CreationKit.ReportedIffFailed | src/smart_objects/creation_kit.rs:269-310 | an error that only one check can report is reported iff that check failed |
| CreationKit.FieldErrorsReport | src/smart_objects/creation_kit.rs:274-303 | each field error (empty name, price, category, size, utility, range, users) is reported iff its constraint is violated |
| CreationKit.FieldErrorsNotActions | src/smart_objects/creation_kit.rs:274-303 | the field checks report at most seven errors, none about an action |
| CreationKit.FieldErrorsEmptyIff | src/smart_objects/creation_kit.rs:274-303 | no field error is reported iff every field constraint holds |
| CreationKit.ActionErrorsEmptyIff | src/smart_objects/creation_kit.rs:306-310 | no action error is reported iff every provided action is allowed |
| CreationKit.ActionErrors | src/smart_objects/creation_kit.rs:306-310 | at most one error per provided action, each about a disallowed action |
| CreationKit.ActionErrorsExact | src/smart_objects/creation_kit.rs:306-310 | exactly one error per occurrence of a disallowed action, and an error names an action iff it is provided and not allowed |
| CreationKit.Warnings | src/smart_objects/creation_kit.rs:313-323 | the three warnings appear iff utility exceeds 0.9, range exceeds 150, durability is below 0.3 |
| CreationKit.ValidIff | src/smart_objects/creation_kit.rs:269-341 | a definition passes iff every field constraint holds and every provided action is allowed; warnings never fail it |
| CreationKit.IsValid | src/smart_objects/creation_kit.rs:336-338 | a result passes exactly when it reports no error; ValidIff says when a validation passes |
| CreationKit.HasWarnings | src/smart_objects/creation_kit.rs:340-342 | a result has warnings exactly when it reports at least one |
| CreationKit.WarnedIff | src/smart_objects/creation_kit.rs:313-323 | a validation has warnings iff utility exceeds 0.9, range exceeds 150 or durability is below 0.3 |
| CreationKit.DurabilityNeverInvalidates | src/smart_objects/creation_kit.rs:321-323 | changing durability never changes the errors reported |
| CreationKit.ActionErrorsStep | src/smart_objects/creation_kit.rs:306-310 | each further provided action appends its error exactly when it is not allowed, keeping the order of the actions |
| CreationKit.CollectFailures | src/smart_objects/creation_kit.rs:270-303 | the field checks, made one after the other, report exactly the errors of the failed checks in order |
| CreationKit.CollectActionErrors | src/smart_objects/creation_kit.rs:306-310 | the loop over the provided actions reports exactly one error per disallowed action, in order |
| CreationKit.ValidateDefinition | src/smart_objects/creation_kit.rs:269-327 | the loop over the provided actions computes exactly the validation result specified by the field checks followed by the action checks |
| ObjectRegistry.Find | src/smart_objects/mod.rs:120 | no item iff no entry has the key; with distinct keys the entry's item |
| ObjectRegistry.Insert | src/smart_objects/mod.rs:144-146 | a map insert: the new pair is present, other keys' pairs stay, nothing else is added, keys stay distinct, size grows by at most one |
| ObjectRegistry.Values | src/smart_objects/mod.rs:137-139 | the items in entry order, one per entry |
| ObjectRegistry.EmptyQueryMatchesAll | src/smart_objects/mod.rs:157-158 | the empty query matches every workshop item |
| ObjectRegistry.Registry.constructor | src/smart_objects/mod.rs:89-93 | a registry over the given catalog with no workshop items |
| ObjectRegistry.Registry.GetDefinition | src/smart_objects/mod.rs:118-126 | a workshop item with the id wins; otherwise the catalog's answer, and none without a catalog |
| ObjectRegistry.Registry.AllAvailableDefinitions | src/smart_objects/mod.rs:128-142 | the catalog's items in order, then one definition per workshop item |
| ObjectRegistry.Registry.RegisterWorkshopItem | src/smart_objects/mod.rs:144-146 | the workshop items become the map insert of the new item; the catalog is unchanged |
| ObjectRegistry.Registry.ItemsByAuthor | src/smart_objects/mod.rs:148-152 | an item is listed iff it is a workshop item by that author |
| ObjectRegistry.Registry.SearchWorkshopItems | src/smart_objects/mod.rs:154-168 | an item is listed iff it is a workshop item whose lower-cased title or description contains the lower-cased query and which carries one of the tags (any item when no tags) |
| ObjectRegistry.RegisteredShadowsCatalog | src/smart_objects/mod.rs:118-146 | after registering an id, looking it up yields the new item |
| ObjectRegistry.InsertKeepsOthers | src/smart_objects/mod.rs:144-146 | registering one id leaves every other id's lookup unchanged |
| ObjectRegistry.SearchWithoutTags | src/smart_objects/mod.rs:154-168 | with no tags a search returns exactly the text matches, in map order |
| Nocturnal.TraitsOf | src/nocturnal_behaviors.rs:145-237 | the night-trait table: nocturnal and efficient hunters are exactly the owls, communal roosters exactly crows and starlings (at communal sites), night migrants exactly warbler, tanager and oriole; departure offsets in (0, 2] |
| Nocturnal.ActivityModifier | src/nocturnal_behaviors.rs:246-269 | activity lies in [0.1, 1]; cathemeral birds 0.8; nocturnal birds 1.0 at night; a diurnal bird is below 0.3 exactly at night; crepuscular birds never below 0.3 |
| Nocturnal.NextEnergy | src/nocturnal_behaviors.rs:272 | energy stays in [0.1, 1] and, within range, drifts 1% toward the activity level |
| Nocturnal.CycleState | src/nocturnal_behaviors.rs:275-295 | at low activity every bird rests except a fleeing one; a resting nocturnal bird at night is woken to wandering (its activity is above 0.8), and no other change happens; other states are kept |
| Nocturnal.DiurnalRestsAtNight | src/nocturnal_behaviors.rs:275-284 | a diurnal bird that is not fleeing rests at night |
| Nocturnal.Best | src/nocturnal_behaviors.rs:328-342 | the best-candidate scan starts at score 0: the score kept is never negative and is 0 when nothing is chosen |
| Nocturnal.BestIsMaximum | src/nocturnal_behaviors.rs:328-342 | no eligible candidate scores above the chosen one, and the choice is an eligible candidate with that score |
| Nocturnal.BestPrefix | src/nocturnal_behaviors.rs:336-339 | one more candidate replaces the choice exactly when it is eligible and scores strictly higher |
| Nocturnal.BestNoneIff | src/nocturnal_behaviors.rs:328-342 | nothing is chosen iff no eligible candidate scores above 0 |
| Nocturnal.BestIsFirst | src/nocturnal_behaviors.rs:336-339 | on ties the earliest candidate with the best score is chosen |
| Nocturnal.TerritoryCandidate | src/nocturnal_behaviors.rs:331-335 | a territory is eligible iff the bird is within its radius, scored by density, competition and closeness |
| Nocturnal.TerritoryCandidates | src/nocturnal_behaviors.rs:330-342 | one candidate per territory, in order |
| Nocturnal.AsWrittenLateHuntLocksOut | src/nocturnal_behaviors.rs:324 | as written, an owl that last hunted after 22:00 never passes the cooldown in any prime hunting hour |
| Nocturnal.HuntCooldownOverAsWritten | src/nocturnal_behaviors.rs:324 | the cooldown check as written: before 2:00 it never passes, whatever the last hunt time |
| Nocturnal.HuntCooldownOver | src/nocturnal_behaviors.rs:324 | the corrected check (Findings row 2): across midnight it passes once two hours have gone by on the clock, and it passes whenever the written check does |
| Nocturnal.HoursSince | src/nocturnal_behaviors.rs:324 | the hours since the last hunt counted across midnight lie in [0, 24) and equal the plain difference on the same day |
| Nocturnal.LateHunterHuntsAgain | src/nocturnal_behaviors.rs:307-326 | with the cooldown counted across midnight, an owl that hunted between 20:00 and 23:00 may hunt again at 03:00 |
| Nocturnal.CooldownAgreesSameDay | src/nocturnal_behaviors.rs:324 | the corrected cooldown agrees with the written one whenever the clock has not passed midnight |
| Nocturnal.HuntEnergy | src/nocturnal_behaviors.rs:358-363 | success adds 0.3 capped at 1, failure takes 0.1 floored at 0.1; energy stays in [0.1, 1] |
| Nocturnal.HuntSuccessRate | src/nocturnal_behaviors.rs:358-360 | success closes a tenth of the gap to 1 (1 - r == 0.9 * (1 - rate)) and keeps the rate in [0, 1]; failure leaves it unchanged |
| Nocturnal.RoostCandidate | src/nocturnal_behaviors.rs:399-418 | a roost is eligible iff it is of the preferred type, has room for communal roosters and is within 200 units; scored by quality, safety and closeness |
| Nocturnal.RoostCandidates | src/nocturnal_behaviors.rs:397-424 | one candidate per roost, in order |
| Nocturnal.ChosenRoostSuits | src/nocturnal_behaviors.rs:397-424 | a chosen roost is of the preferred type, within 200 units, and has room for a communal rooster |
| Nocturnal.BestTerritory | src/nocturnal_behaviors.rs:326-342 | the loop over the territories computes exactly the best-candidate scan of the territory candidates |
| Nocturnal.BestRoost | src/nocturnal_behaviors.rs:393-424 | the loop over the roosts computes exactly the best-candidate scan of the roost candidates |
| Nocturnal.NocturnalBird.constructor | src/nocturnal_behaviors.rs:547-563 | a new component: the species' traits, no roost, success rate 0.5, energy 0.8, last hunt at 0, no arrival time |
| Nocturnal.NocturnalBird.ActivityTick | src/nocturnal_behaviors.rs:254-296 | energy and state advance by the activity cycle; energy stays in [0.1, 1]; roost and hunting fields are untouched |
| Nocturnal.NocturnalBird.Hunt | src/nocturnal_behaviors.rs:315-369 | only an efficient nocturnal hunter past its cooldown with a territory in reach hunts; it then records the hour and updates energy and success rate by the outcome; state and roost are untouched (corrected form, Findings row 2) |
| Nocturnal.NocturnalBird.SelectRoost | src/nocturnal_behaviors.rs:378-442 | in roosting hours a bird without a roost (not an owl from 20:00) takes the best suitable roost and reports an arrival; a bird with a roost keeps it |
| Nocturnal.NocturnalBird.DawnDeparture | src/nocturnal_behaviors.rs:452-486 | between 6 and 8 a roosting day bird whose departure time has come leaves its roost, wanders and reports a departure; otherwise nothing changes |
| Nocturnal.DepartureWithinDawnWindow | src/nocturnal_behaviors.rs:456-471 | every species' departure time falls within the dawn window, so every day bird can leave |
| Nocturnal.HuntOf | src/nocturnal_behaviors.rs:307-369 | a hunt is made only by the bird itself, in prime hours, as an efficient nocturnal hunter past its cooldown, on the best territory; such a hunter makes none only when no territory is in reach (corrected form, Findings row 2) |
| Nocturnal.ArrivalOf | src/nocturnal_behaviors.rs:378-442 | an arrival is reported only for a roostless bird in roosting hours (not an owl from 20:00), at the best suitable roost; such a bird stays out only when no roost suits |
| Nocturnal.DepartureOf | src/nocturnal_behaviors.rs:452-486 | a departure is reported iff the hour is in 6..8, the bird is not nocturnal, has a roost and its departure time has come; it names that roost |
| Nocturnal.HuntsFacts | src/nocturnal_behaviors.rs:299-371 | out of prime hunting hours there are no hunts; otherwise at most one per bird, each by one of the birds |
| Nocturnal.ArrivalsFacts | src/nocturnal_behaviors.rs:374-444 | out of roosting hours there are no arrivals; otherwise at most one per bird, each by a bird that had no roost; no more sites are noted than arrivals |
| Nocturnal.CommunalSitesArrived | src/nocturnal_behaviors.rs:427-440 | every site noted in the manager is the site of an arrival of the same frame |
| Nocturnal.DeparturesFacts | src/nocturnal_behaviors.rs:447-486 | out of the dawn window there are no departures; otherwise at most one per bird, each by a day bird from the roost it held |
| Nocturnal.RoostPrefixStep | src/nocturnal_behaviors.rs:374-444 | one more bird's turn appends exactly its own arrival (and communal site) to those of the birds before it |
| Nocturnal.HuntsPrefixStep | src/nocturnal_behaviors.rs:299-371 | one more bird's turn appends exactly its own hunt to those of the birds before it |
| Nocturnal.DeparturesPrefixStep | src/nocturnal_behaviors.rs:447-486 | one more bird's turn appends exactly its own departure to those of the birds before it |
| Nocturnal.RoostTurn | src/nocturnal_behaviors.rs:378-442 | the event is ArrivalOf the bird's old roost; the bird is Roosted accordingly and a communal rooster's arrival site is appended to the manager's list |
| Nocturnal.ApplyRoostEvent | src/nocturnal_behaviors.rs:571-581 | an arrival adds one occupant, a departure removes one without going below 0 |
| Nocturnal.ArrivalThenDepartureRestores | src/nocturnal_behaviors.rs:571-581 | an arrival followed by the same bird's departure leaves the occupancy as it was |
| Nocturnal.OccupancyBoundedByArrivals | src/nocturnal_behaviors.rs:566-584 | occupancy never rises by more than the number of events |
| Nocturnal.RoostSite.constructor | src/nocturnal_behaviors.rs:627-638 | a new site with the capacity of its type and no occupants |
| Nocturnal.SiteCapacity | src/nocturnal_behaviors.rs:629-634 | every site holds at least two birds, a communal site twenty |
| Nocturnal.UpdateNocturnalStates | src/nocturnal_behaviors.rs:566-584 | every site's occupancy becomes the result of the events that name it |
| Nocturnal.NocturnalManager.constructor | src/nocturnal_behaviors.rs:96-102 | a manager with no roost sites and every flag off |
| Nocturnal.MigrationActive | src/nocturnal_behaviors.rs:495-504 | migration is active only in spring or autumn and only from 21:00 to 05:00 |
| Nocturnal.ActivityCycleSystem | src/nocturnal_behaviors.rs:240-297 | dusk and dawn flags follow the hour, the roost list and migration flag are kept; every bird's energy and state become NextEnergy and CycleState of its own old values, its roost and hunting fields untouched |
| Nocturnal.RoostSelectionSystem | src/nocturnal_behaviors.rs:374-444 | the events are exactly the in-order ArrivalOf of each bird's old state; the manager's list grows by exactly the sites of the communal roosters' arrivals; each bird that arrives takes that roost and the hour as arrival time, every other field kept |
| Nocturnal.OwlHuntingSystem | src/nocturnal_behaviors.rs:299-371 | the events are exactly the in-order HuntOf of each bird's old energy and last hunt time; a bird that hunts records the hour and takes HuntEnergy and HuntSuccessRate of the outcome, every other bird is unchanged; state and roost never move (corrected form, Findings row 2) |
| Nocturnal.DawnDepartureSystem | src/nocturnal_behaviors.rs:447-486 | the events are exactly the in-order DepartureOf of each bird's old roost; a bird that departs loses its roost and arrival time and wanders, every other bird keeps roost and state |
| Nocturnal.NightMigrationSystem | src/nocturnal_behaviors.rs:489-504 | the migration flag becomes whether it is a spring or autumn night; the roost list and the dusk and dawn flags are untouched |
| Catalog.Price | src/catalog/components.rs:109-142 | prices lie between 10 and 500 coins, and only the cardboard box costs 10 |
| Catalog.ProvidesActions | src/catalog/components.rs:189-221 | one or two distinct actions per item; eating iff a food item, drinking iff a water item |
| Catalog.BaseUtility | src/catalog/components.rs:223-258 | base utility lies in [0.3, 0.95], with 0.95 only for the stream feature |
| Catalog.InteractionRange | src/catalog/components.rs:260-292 | interaction ranges lie in [30, 120], at least 90 for water items |
| Catalog.CategoryItems | src/catalog/resources.rs:55-90 | each tab lists three to five distinct items |
| Catalog.ListedUnderOwnTab | src/catalog/resources.rs:55-90 | every item is listed under the tab of its own category |
| Catalog.ListedOnlyUnderOwnTab | src/catalog/resources.rs:55-90 | a tab lists only items of its own category |
| Catalog.TabEntryCategory | src/catalog/resources.rs:55-90 | every entry of a tab belongs to that tab's category |
| Catalog.CategoriesPartition | src/catalog/resources.rs:55-90 | the category tabs partition the items: each item is listed under exactly one tab |
| Catalog.UtilityProviders | src/catalog/systems.rs:351-381 | one provider per action in order, all at the item's range; the primary at the base utility, the others at 0.8 of it |
| Catalog.ProvidersUsable | src/catalog/systems.rs:351-381 | every provider has range at least 30 and utility between 0.24 and the base utility, and every action of the item has a provider |
| Catalog.Purchases | src/catalog/systems.rs:283-313 | the balance never rises |
| Catalog.PurchasesBounded | src/catalog/systems.rs:289-311 | at most one item is bought per event, and only items that were asked for |
| Catalog.Notice | src/catalog/systems.rs:290-311 | a purchase is announced as bought iff the balance covers the price; either notice names the item and its price |
| Catalog.NoticesLength | src/catalog/systems.rs:289-312 | one notice per event |
| Catalog.NoticeInOrder | src/catalog/systems.rs:289-312 | notice i is the Notice of event i against the balance the earlier events left |
| Catalog.Count | src/catalog/systems.rs:294 | an item's count is positive iff it occurs in the list |
| Catalog.CountAppend | src/catalog/systems.rs:294 | appending an item raises its count by one and leaves the others |
| Catalog.PriceSumAppend | src/catalog/systems.rs:293 | appending an item adds its price to the total |
| Catalog.PurchasesAccounted | src/catalog/systems.rs:283-313 | no coin is created or lost: the balance left plus the prices of the items bought is the starting balance |
| Catalog.PurchaseRefusedOnlyWhenShort | src/catalog/systems.rs:290-311 | an event buys its item iff the coins left at that point cover the price |
| Catalog.ButtonEvents | src/catalog/systems.rs:245-263 | a pressed button raises a purchase event iff the coins cover its price |
| Catalog.ButtonEventAffordable | src/catalog/systems.rs:245-313 | the first event raised by the buttons is paid for when handled at the same balance |
| Catalog.PlayerInventory.constructor | src/catalog/resources.rs:18-25 | a new game starts with 100 coins and nothing owned |
| Catalog.PlayerInventory.Purchase | src/catalog/systems.rs:290-311 | an affordable item is paid for and one more is owned; otherwise nothing changes; the notice is Notice of the old balance |
| Catalog.PlayerInventory.HandlePurchaseEvents | src/catalog/systems.rs:283-313 | the balance and owned counts become those of the purchase specification: starting counts plus the items bought; the notices are exactly Notices of the events, one per event in order |
| Catalog.PurchasesStep | src/catalog/systems.rs:290-311 | one more purchase event pays and records the item iff its price is covered, and adds its Notice |
| Catalog.OwnedAfterPurchase | src/catalog/systems.rs:294 | buying one more item keeps every count equal to the starting count plus the items bought |
| Catalog.Placed | src/catalog/systems.rs:321-324 | at most one placement per event |
| Catalog.PlacedWithinOwned | src/catalog/systems.rs:321-324 | placement never uses more of an item than is owned |
| Catalog.PlacementRefusedIffNoneLeft | src/catalog/systems.rs:321-324 | an event is placed iff some owned unit of its item is not yet placed |
| Catalog.PlacedObjects.constructor | src/catalog/resources.rs:27-32 | nothing placed, not in placement mode, no ghost |
| Catalog.PlaceObject | src/catalog/systems.rs:321-383 | an owned item loses one unit and is spawned and recorded with its utility providers; an unowned one changes nothing; coins are untouched |
| Catalog.SpawnedItems | src/catalog/systems.rs:383 | one item per spawned object, in order |
| Catalog.PlacedStep | src/catalog/systems.rs:321-324 | one more event is placed iff its item has an unplaced unit |
| Catalog.PlacedCountsStep | src/catalog/systems.rs:321-324 | each event keeps owned plus placed at the starting count for every item |
| Catalog.HandlePlaceObjectEvents | src/catalog/systems.rs:315-385 | owned plus placed stays at the starting count for every item; the spawned items are exactly the placement specification; the object map is the old map with each spawned entity recorded in order, so its keys are the old keys plus the spawned entities and no others, a key no spawn reuses keeps its item, and with distinct entity ids each spawned entity maps to its own item; placement mode and the ghost are untouched |
| Catalog.RecordedKeys | src/catalog/systems.rs:381 | recording spawned objects adds exactly their entities as keys |
| Catalog.RecordedKeeps | src/catalog/systems.rs:381 | a key that no spawned object reuses keeps its old item |
| Catalog.RecordedLatest | src/catalog/systems.rs:381 | with distinct entities each spawned entity maps to the item spawned under it |
| Catalog.RecordedFacts | src/catalog/systems.rs:381 | the key set, kept and new values of the recorded map together |
| Catalog.EntityStep | src/catalog/systems.rs:322-381 | each event's spawn uses that event's entity, so spawned entities stay among those used and distinct when the ids are |
| Catalog.RemainingConserves | src/catalog/systems.rs:321-324 | after any run of placement events, what is left plus what was placed is, item by item, what was owned at the start |
| Catalog.PlacedWhenLeft | src/catalog/systems.rs:321-324 | one more event is placed exactly when a unit of its item is left after the earlier events |
| Catalog.PlacingStep | src/catalog/systems.rs:315-385 | one PlaceObject call extends the whole placement state (what is left, the placed items, the object map, the ids used) by its event |
| Catalog.CatalogState.constructor | src/catalog/resources.rs:5-10 | closed, on the first tab, nothing selected |
| Catalog.HandleCatalogInput | src/catalog/systems.rs:187-216 | C toggles the catalog, and closing it ends placement mode; Escape ends placement and drops the selection |
| Catalog.SelectionAfter | src/catalog/systems.rs:265-281 | when some pressed item is owned, the selection is the last owned pressed item (no owned item pressed after it); when none is, the selection is unchanged |
| Catalog.HandlePlaceButtons | src/catalog/systems.rs:265-281 | the selection becomes SelectionAfter of the presses, i.e. the last pressed owned item, or stays when no pressed item is owned; the window and tab are untouched |
| Catalog.StartPlacementMode | src/catalog/systems.rs:664-689 | a selection starts placement mode with a ghost preview unless it is already on; otherwise nothing changes |
| Catalog.CursorToWorld | src/catalog/systems.rs:628 | the screen-to-world conversion: x shifted by 400, y flipped around 300 |
| Catalog.HandleObjectPlacement | src/catalog/systems.rs:610-662 | a placement is requested iff in placement mode a left click lands over the window with an item selected, at the cursor's world position; placement mode then ends, as it does on a right click, and the ghost goes with it |
| Notifications.Room | src/notifications/resources.rs:25-32 | a frame can show no more than the queue holds and no more than the free slots; none when the cap is reached |
| Notifications.Shown | src/notifications/systems.rs:39-41 | a frame shows as many of the queued notifications as there is room for |
| Notifications.ShownThenRemainingIsQueue | src/notifications/systems.rs:39-41 | a frame neither loses nor reorders notifications: those shown followed by those left are the queue |
| Notifications.CountAfter | src/notifications/resources.rs:25-32 | counting only the notifications shown, the on-screen count grows by exactly those and never exceeds the cap |
| Notifications.AsWrittenCountsPhantomSlot | src/notifications/resources.rs:25-32 | as written, a frame that drains the queue below the cap counts one slot more than it shows |
| Notifications.AsWrittenIdleFramesLockOut | src/notifications/systems.rs:39 | as written, enough idle frames fill every slot, after which no notification is ever shown |
| Notifications.IdleFrameKeepsCount | src/notifications/systems.rs:39 | with only shown notifications counted, a frame with an empty queue leaves the count alone |
| Notifications.FrameMakesProgress | src/notifications/systems.rs:39-41 | a frame with a free slot and something queued shows the oldest queued notification |
| Notifications.NotificationQueue.New | src/notifications/resources.rs:13-19 | a new queue is empty, shows at most three at once and counts none on screen |
| Notifications.NotificationQueue.Default | src/notifications/resources.rs:5-10 | the derived Default queue is empty with a cap of zero and a count of zero |
| Notifications.NotificationQueue.Push | src/notifications/resources.rs:21-23 | the notification is appended at the back; cap and count unchanged |
| Notifications.NotificationQueue.PopAsWritten | src/notifications/resources.rs:25-32 | below the cap a slot is counted and the front handed out (possibly none); at the cap nothing changes |
| Notifications.NotificationQueue.Pop | src/notifications/resources.rs:25-32 | below the cap with something queued the front is handed out and counted; otherwise nothing changes |
| Notifications.NotificationQueue.NotificationCompleted | src/notifications/resources.rs:34-38 | one slot is freed, never going below zero |
| Notifications.NotificationQueue.SpawnerSystem | src/notifications/systems.rs:23-42 | the frame's events are queued, then exactly the notifications specified by Shown are shown, the rest stay queued, and the count grows by those shown |
| Notifications.NotificationQueue.SpawnerSystemAsWritten | src/notifications/systems.rs:23-42 | the same frame with pop as written: the same notifications are shown but the count follows the as-written rule |
| Notifications.NotificationQueue.CleanupSystem | src/notifications/systems.rs:197-208 | one completion per finished notification: the count drops by that many, never below zero |
| Notifications.DefaultQueueShowsNothing | src/notifications/mod.rs:15 | the queue the plugin installs shows nothing, whatever is queued |
| Notifications.NewQueueShowsFirst | src/notifications/resources.rs:13-19 | a queue built with new shows the first queued notification on the next frame |
| Console.PushCapped | src/debug_console.rs:540-551 | appending to a capped log keeps it within the cap, is a plain append below the cap, and keeps the newest entries |
| Console.PushAllKeepsNewest | src/debug_console.rs:540-551 | any run of capped appends keeps exactly the newest entries that fit, dropping the oldest first |
| Console.ConsoleHistory.constructor | src/debug_console.rs:56-65 | empty log and history, index 0, caps 100 messages and 50 commands |
| Console.ConsoleHistory.AddConsoleMessage | src/debug_console.rs:540-551 | the message is appended to the capped log; the command history is untouched |
| Console.ConsoleHistory.Clear | src/debug_console.rs:472-475 | the log becomes just the confirmation message; the command history is untouched |
| Console.RemoveAt | src/debug_console.rs:281 | removing a character shortens the text by one and shifts the rest left |
| Console.InsertAt | src/debug_console.rs:346-352 | inserting puts the character at the position and shifts the rest right |
| Console.BackspaceUndoesInsert | src/debug_console.rs:278-284 | typing a character and backspacing over it restores the text |
| Console.ConsoleTextInput.constructor | src/debug_console.rs:100-104 | an empty, unfocused input with the cursor at 0 |
| Console.ConsoleTextInput.Backspace | src/debug_console.rs:278-284 | with the cursor past the start, the character before it is removed and the cursor steps back; at the start nothing changes |
| Console.ConsoleTextInput.Delete | src/debug_console.rs:287-292 | the character under the cursor is removed if there is one; the cursor stays |
| Console.ConsoleTextInput.ArrowLeft | src/debug_console.rs:295-299 | the cursor moves left, stopping at 0; the text is unchanged |
| Console.ConsoleTextInput.ArrowRight | src/debug_console.rs:301-305 | the cursor moves right, stopping at the end; the text is unchanged |
| Console.ConsoleTextInput.TypeChar | src/debug_console.rs:346-352 | a typed character is inserted at the cursor, which moves past it |
| Console.ConsoleTextInput.TypeChars | src/debug_console.rs:331-353 | the frame's characters are inserted in order at the cursor, which ends after them |
| Console.ConsoleState.constructor | src/debug_console.rs:39-45 | the console starts hidden |
| Console.ToggleConsole | src/debug_console.rs:192-220 | the ~ key flips visibility; showing clears and focuses the input, hiding unfocuses it; without the key nothing changes |
| Console.ParseCommandLine | src/debug_console.rs:241-248 | no command iff the line is all whitespace; otherwise the first word with the remaining words as arguments |
| Console.SingleWordCommand | src/debug_console.rs:241-248 | a one-word line is that command with no arguments |
| Console.Submit | src/debug_console.rs:239-275 | an empty line changes nothing; otherwise the line is cleared, and a line with a word is recorded in the capped history (index past the newest), echoed to the log and sent |
| Console.HistoryUp | src/debug_console.rs:307-315 | the index steps back and that command is recalled with the cursor at its end; at the oldest entry nothing changes |
| Console.HistoryDown | src/debug_console.rs:317-329 | the index steps forward; stepping past the newest entry clears the line, otherwise that command is recalled |
| Console.EditingKeys | src/debug_console.rs:277-354 | the line, cursor and history index become EditedLine of their old values: Backspace, Delete, the arrows, history up and down, then the typed characters; the log and stored commands are untouched |
| Console.TextInputSystem | src/debug_console.rs:222-354 | a hidden or unfocused console changes nothing; a command is sent iff Enter submits a line holding a word, it is that line's parse, it is pushed onto the capped history and the line is echoed as "> line" into the capped message log, which is otherwise untouched; the line ends as EditedLine of SubmittedLine of the old line |
| Console.BackspaceKey | src/debug_console.rs:278-285 | Backspace removes one character exactly when the cursor is past the start; cursor stays within the text |
| Console.DeleteKey | src/debug_console.rs:287-293 | Delete removes one character exactly when the cursor is before the end; the cursor does not move |
| Console.ArrowKeys | src/debug_console.rs:295-305 | the arrows never change the text and keep the cursor within it; left alone steps back, right alone steps forward where there is room |
| Console.UpKey | src/debug_console.rs:307-315 | ArrowUp with an index above 0 recalls the previous command with the cursor at its end; the index stays within the history |
| Console.DownKey | src/debug_console.rs:317-329 | ArrowDown recalls the next command, clears the line when it passes the newest, and does nothing past the end |
| Console.TypeKeys | src/debug_console.rs:331-354 | the typed characters go in at the cursor, which ends just past them; the text on either side is kept |
| Console.SubmittedLine | src/debug_console.rs:239-274 | Enter on a non-empty line clears it; the history index moves only when a command was recorded; otherwise the line is unchanged |
| Console.EditedLine | src/debug_console.rs:277-354 | the keys of a frame keep a well-formed line well formed against the history |
| Console.TypeThenBackspace | src/debug_console.rs:278-285 | a character typed and then backspaced over leaves the line as it was |
| Console.UpThenDown | src/debug_console.rs:307-329 | ArrowUp then ArrowDown in one frame lands on the entry at the old index |
| Console.TimeAcceleration.constructor | src/automated_testing.rs:32-40 | acceleration starts at 1x, capped at 100x, switched off |
| Console.SpawnSpecies | src/debug_console.rs:431-438 | a species is found exactly when the lower-cased argument is robin, cardinal, bluejay or chickadee, and it is one of those four |
| Console.SpawnSpeciesIgnoresCase | src/debug_console.rs:431-438 | the species argument is matched without regard to case |
| Console.Outcome | src/debug_console.rs:356-481 | a multiplier is set iff the time command's parsed argument lies in [1, max]; a spawn happens iff the count lies in [1, 100] for a known species; test run starts the named scenario; unknown iff the command is none of the six |
| Console.ApplyTimeOutcome | src/debug_console.rs:412-425 | only an accepted multiplier changes the acceleration, which is on iff above 1 |
| Console.AcceptedMultiplierInRange | src/debug_console.rs:415-420 | an accepted multiplier is the parsed argument and lies within [1, max] |
| Tutorial.Position | src/tutorial/components.rs:86-100 | each step's place in the chain: Welcome first at 0, Complete last at 10 |
| Tutorial.Next | src/tutorial/components.rs:86-100 | next is undefined only at Complete, and otherwise moves exactly one place along the chain |
| Tutorial.PositionInjective | src/tutorial/components.rs:86-100 | different steps sit at different places, so the chain visits each step once |
| Tutorial.AdvanceWalksChain | src/tutorial/components.rs:86-100 | repeated next moves one place at a time and ends after 10 minus the step's place calls |
| Tutorial.ReachesComplete | src/tutorial/components.rs:86-100 | every step reaches Complete within ten calls of next, and no earlier call yields Complete |
| Tutorial.InputHint | src/tutorial/components.rs:75-84 | a hint exists iff the step is camera movement, photo mode, take photo, view journal or open catalog |
| Tutorial.WithStep | src/tutorial/resources.rs:73-77 | recording a step keeps every recorded step, adds only that step, and never duplicates |
| Tutorial.WithStepIdempotent | src/tutorial/resources.rs:73-77 | recording the same step twice is the same as recording it once |
| Tutorial.TutorialProgress.constructor | src/tutorial/resources.rs:28-33 | no step completed, tutorial neither completed nor skipped |
| Tutorial.TutorialProgress.IsStepCompleted | src/tutorial/resources.rs:69-71 | true iff the step is among the completed steps |
| Tutorial.TutorialProgress.CompleteStep | src/tutorial/resources.rs:73-77 | the completed steps become the recorded list with the step, which is then completed; the flags and whether the tutorial is shown are untouched |
| Tutorial.TutorialProgress.FinishTutorial | src/tutorial/systems.rs:231-233 | the tutorial is marked completed and is no longer shown; steps and the skipped flag are untouched |
| Tutorial.TutorialProgress.ShouldShowTutorial | src/tutorial/resources.rs:79-81 | shown iff neither completed nor skipped (completing a step leaves it; finishing the tutorial turns it off) |
| Environment.GetSeason | src/environment/resources.rs:24-32 | total over days: winter for 1-79, 0 and after 355; spring 80-171; summer 172-264; fall 265-355 |
| Environment.TimeState.Season | src/environment/resources.rs:24-32 | the clock's season: spring on days 80-171, summer 172-264, fall 265-355, winter otherwise |
| Environment.IsPrimeFeedingTime | src/environment/resources.rs:34-37 | prime feeding time is always in daylight (factor at least 0.6) and never between 10:00 and 16:00 |
| Environment.PrimeFeedingWindows | src/environment/resources.rs:34-37 | 6:00, 10:00, 16:00 and 19:00 are prime; no hour before 6:00 or after 19:00 is; the prime hours in full daylight are exactly 8-10 and 16-18 |
| Environment.DaylightFactor | src/environment/resources.rs:39-48 | the factor is 0.1, 0.6 or 1.0: full from 8 to 18, minimal before 6 and after 20 |
| Environment.DaylightTowardMidday | src/environment/resources.rs:39-48 | daylight never falls as the morning goes on and never rises after midday |
| Environment.NextDay | src/environment/systems.rs:44-49 | the next day stays within 1-365 and is either the following day or day 1 |
| Environment.DayAfterIsModular | src/environment/systems.rs:44-49 | counting days forward is arithmetic modulo 365 over 1-365 |
| Environment.YearIsACycle | src/environment/systems.rs:44-49 | after 365 days the calendar is back on the same day |
| Environment.SeasonChangesAtBoundaries | src/environment/systems.rs:52-57 | the season changes overnight exactly after days 79, 171, 264 and 355 |
| Environment.AsU32 | src/environment/systems.rs:61 | the hour's cast to u32 truncates toward zero, saturating at the type's bounds |
| Environment.Residents | src/environment/resources.rs:98-111 | eight year-round residents, each at probability 1.0 |
| Environment.ResidentsDistinct | src/environment/resources.rs:98-111 | each resident is listed once |
| Environment.VisitorsAreNotResidents | src/environment/resources.rs:113-143 | no season's visitors include a resident, so no visitor insert overwrites a resident |
| Environment.InsertAllKeys | src/environment/resources.rs:111-141 | after the inserts the map holds exactly its old keys and the inserted ones |
| Environment.InsertAllKeeps | src/environment/resources.rs:111-141 | a key no pair inserts keeps its value |
| Environment.InsertAllLastWins | src/environment/resources.rs:111-141 | the last pair inserted for a key decides its value |
| Environment.ResidentsAlwaysAvailable | src/environment/resources.rs:94-111 | in every season every resident is available at probability 1.0 |
| Environment.AvailableIffResidentOrVisitor | src/environment/resources.rs:94-143 | a species is available in a season iff it is a resident or one of that season's visitors |
| Environment.VisitorsAtTheirProbability | src/environment/resources.rs:113-141 | a visitor is available at the probability its season lists |
| Environment.AsWrittenStartOutOfSeason | src/environment/resources.rs:74-91 | the game starts on day 120, in spring, with a starting state that lacks three of the eight residents (common crow, European starling, common grackle) and three of spring's four visitors (yellow warbler, red-winged blackbird, brown thrasher), holds the robin at 1.0 instead of 1.2, and has migration off; the next season, summer, also keeps migration off |
| Environment.SeasonalState.constructor | src/environment/resources.rs:74-91 | the derived starting state: six species at 1.0, no migration |
| Environment.SeasonalState.ForDay | src/environment/resources.rs:94-143 | a starting state built for a day holds exactly that day's season's species and migration flag |
| Environment.SeasonalState.InsertPairs | src/environment/resources.rs:111-141 | the species map becomes the map after inserting the pairs in order; migration untouched |
| Environment.SeasonalState.UpdateForSeason | src/environment/resources.rs:94-145 | the species map is rebuilt to exactly the season's species, and migration is on iff spring or fall |
| Environment.SeasonalState.GetSpawnProbability | src/environment/resources.rs:147-149 | the stored probability, or 0 for a species not available (after UpdateForSeason: see SpawnProbabilityAfterUpdate) |
| Environment.SeasonSpawnProbabilities | src/environment/resources.rs:94-149 | in a season's species map every resident spawns at 1.0, every listed visitor at its listed probability, every other species at 0 |
| Environment.SpawnProbabilityAfterUpdate | src/environment/resources.rs:94-149 | after a season update every resident spawns at 1.0, every listed visitor at its listed probability, every other species at 0 |
| Environment.TimeState.constructor | src/environment/resources.rs:13-21 | 8 in the morning of day 120, 60 real seconds per game hour |
| Environment.TimeProgression | src/environment/systems.rs:29-67 | the hour advances by the frame and wraps once past 24 with the next day; species are rebuilt only when the season changed, so an in-season state stays in season; an event is sent iff the whole hour or the day changed |
| Achievements.CurrencyReward | src/achievements.rs:78-88 | rewards lie between 25 and 500 coins: 25 exactly for the two first-time achievements, 500 exactly for Millionaire |
| Achievements.Name | src/achievements.rs:46-60 | every achievement has a non-empty title |
| Achievements.NamesDistinct | src/achievements.rs:46-60 | no two achievements share a title |
| Achievements.Description | src/achievements.rs:62-76 | every achievement has a non-empty description |
| Achievements.ActionShots | src/achievements.rs:157-158 | the number of action shots is at most the number of photos and positive iff some photo scores 50 or more for behaviour |
| Achievements.MultiBirdShots | src/achievements.rs:166-167 | the number of multi-bird shots is at most the number of photos and positive iff some photo has a rarity bonus |
| Achievements.SpeciesUnlocks | src/achievements.rs:183-201 | the collection achievements announced are exactly those not yet unlocked whose threshold (1, 10, 20 species) the count reaches, each once |
| Achievements.CurrencyUnlocks | src/achievements.rs:212-222 | the wealth achievements announced are exactly those not yet unlocked whose threshold (1000, 10000 coins) the balance reaches, each once |
| Achievements.SpeciesUnlocksFireOnce | src/achievements.rs:183-201 | once announced, a collection achievement is never announced again, whatever the later count |
| Achievements.CurrencyUnlocksMonotone | src/achievements.rs:212-222 | a larger balance unlocks at least what a smaller one does |
| Achievements.RewardSum | src/achievements.rs:96-98 | every announcement pays at least 25 coins |
| Achievements.AchievementNotificationSystem | src/achievements.rs:91-109 | the balance grows by exactly the announced rewards, and pop-up k is the Announcement of achievement k: its name and reward, in order |
| Achievements.AchievementProgress.constructor | src/achievements.rs:111-118 | nothing unlocked and every counter zero |
| Achievements.AchievementProgress.Unlock | src/achievements.rs:121-123 | afterwards the achievement is unlocked and the set gained exactly it; reports true iff it was not unlocked before; counters untouched |
| Achievements.AchievementProgress.IsUnlocked | src/achievements.rs:125-127 | true iff the achievement is in the set (Unlock makes it true; Award never announces an achievement for which it was already true) |
| Achievements.PhotoUnlocksFacts | src/achievements.rs:143-173 | one photo announces an achievement iff the photo earns it and it was not unlocked before, and no achievement twice |
| Achievements.EarnedInRunStep | src/achievements.rs:142-143 | an achievement is earned by a run one photo longer iff the shorter run earned it or the new photo does |
| Achievements.EarnedInRunOnlyPhotos | src/achievements.rs:143-173 | a run of photos earns only first photo, photo master, action shot and multi-species shot |
| Achievements.EarnedFirstPhoto | src/achievements.rs:146-149 | first photo is earned by a run iff the run is non-empty and no photo was taken before it |
| Achievements.EarnedPhotoMaster | src/achievements.rs:152-155 | photo master is earned by a run iff the run is non-empty and the count reaches 100 by its end |
| Achievements.EarnedActionShot | src/achievements.rs:158-164 | the action-shot achievement is earned by a run iff it holds an action shot |
| Achievements.EarnedMultiSpeciesShot | src/achievements.rs:167-173 | the multi-species achievement is earned by a run iff it holds a multi-bird shot |
| Achievements.AchievementProgress.Award | src/achievements.rs:146-149 | when the condition holds the achievement is unlocked afterwards; it is announced iff the condition holds and it was not unlocked before; counters untouched |
| Achievements.AchievementProgress.PhotoAchievementSystem | src/achievements.rs:137-175 | the photo count grows by the number of photos, the shot counters by the matching photos; an achievement is announced iff it was not unlocked before and some photo of the run earns it, none twice; the unlocked set gains exactly the announced ones |
| Achievements.AchievementProgress.RecordPhoto | src/achievements.rs:141-173 | one photo adds one to the count and to the matching shot counters; the unlocked set gains what the photo earns, and the photo announces exactly the earned achievements not unlocked before |
| Achievements.AchievementProgress.SpeciesAchievementSystem | src/achievements.rs:177-204 | without a change nothing happens; with one the count is recorded and exactly the collection achievements it reaches are unlocked and announced |
| Achievements.AchievementProgress.CurrencyAchievementSystem | src/achievements.rs:206-224 | without a change nothing happens; with one exactly the wealth achievements the balance reaches are unlocked and announced |
| Challenges.BaseReward | src/social_features/components.rs:67-74 | base rewards lie between 200 and 1200 coins |
| Challenges.BaseRewardMonotone | src/social_features/components.rs:67-74 | a harder challenge never pays less, and a strictly harder one pays strictly more |
| Challenges.Judge | src/social_features/components.rs:289-323 | a species photo completes iff the species matches at the minimum score; a behaviour capture iff the score is 600 or more; other kinds iff a 500+ score brings the count to the target; true is reported iff the challenge was completed by this photo, which records it as best submission |
| Challenges.CountingOnlyForOtherKinds | src/social_features/components.rs:289-323 | only the counting kinds advance on a photo that does not complete them |
| Challenges.GoodPhotosCompleteCounting | src/social_features/components.rs:310-319 | a counting challenge fed photos of 500 or more completes exactly when their number reaches the target |
| Challenges.Challenge.constructor | src/social_features/components.rs:17-29 | a new challenge is open, with no progress and no best submission |
| Challenges.Challenge.IsActive | src/social_features/components.rs:285-287 | active iff not completed (CheckCompletion ends it when it reports completion and never reopens it) |
| Challenges.Challenge.CheckCompletion | src/social_features/components.rs:289-323 | the progress becomes the judged progress and the result is whether this photo completed it; a completed challenge is no longer active, and one that was not active stays so; identity fields untouched |
| Steam.Mappings | src/steam/resources.rs:39-51 | eleven achievement identifiers are mapped |
| Steam.MappingsDistinct | src/steam/resources.rs:39-51 | no local identifier and no Steam identifier appears twice in the table |
| Steam.ResetAllFacts | src/steam/resources.rs:53-56 | after the inserts every listed identifier is present and locked, and every other entry is as it was |
| Steam.RegisteredResetsMapped | src/steam/resources.rs:37-57 | registration adds exactly the mapped identifiers, all locked, and leaves the other entries alone |
| Steam.RegisteredIdempotent | src/steam/resources.rs:37-57 | registering twice is registering once |
| Steam.SteamAchievements.constructor | src/steam/resources.rs:29-34 | nothing registered locally or on the store, nothing waiting |
| Steam.SteamAchievements.RegisterAchievementMapping | src/steam/resources.rs:37-57 | both maps become their registered form; the upload queue is untouched |
| Steam.SteamAchievements.RegisterAll | src/steam/resources.rs:53-56 | the loop inserts every listed identifier as locked in both maps |
| Steam.SteamAchievements.UnlockAchievement | src/steam/resources.rs:59-66 | a registered, locked identifier becomes unlocked and is queued for upload once; an unregistered or already unlocked one changes nothing; every queued identifier is unlocked and queued once |
| Steam.ParseStatName | src/steam/resources.rs:79-87 | each of the four statistic names selects its statistic, and only that name does |
| Steam.SteamStats.constructor | src/steam/resources.rs:69-76 | every statistic starts at zero |
| Steam.SteamStats.UpdateStat | src/steam/resources.rs:79-87 | the named statistic takes the value, every other is unchanged, and an unknown name changes nothing |
| Steam.SteamStats.IncrementStat | src/steam/resources.rs:89-97 | the named statistic grows by the amount, every other is unchanged, and an unknown name changes nothing |
| KeyBindings.DefaultBindsEveryActionOnce | src/keybindings.rs:48-80 | every action starts with exactly one binding |
| KeyBindings.DefaultBindings | src/keybindings.rs:48-80 | each action in the default table has exactly one binding |
| KeyBindings.Primary | src/keybindings.rs:179-181 | no primary iff the list is empty; otherwise its first element |
| KeyBindings.AppendKeepsPrimary | src/keybindings.rs:165-181 | adding a binding keeps an existing primary, and becomes the primary of an empty list |
| KeyBindings.Without | src/keybindings.rs:169-173 | the list keeps exactly the other bindings and never grows |
| KeyBindings.RemoveUndoesAdd | src/keybindings.rs:165-173 | removing a binding just added leaves the list as removing it alone would |
| KeyBindings.RemoveAbsentIsIdentity | src/keybindings.rs:169-173 | removing a binding not in the list leaves it alone |
| KeyBindings.KeyBindingTable.Default | src/keybindings.rs:48-80 | a fresh table holds the default bindings |
| KeyBindings.KeyBindingTable.IsActionActive | src/keybindings.rs:117-163 | active iff some binding of the action is a held key or button (the wheel never counts); an action without bindings is never active |
| KeyBindings.KeyBindingTable.AddBinding | src/keybindings.rs:165-167 | the binding is appended to the action's list, created if absent; other actions untouched |
| KeyBindings.KeyBindingTable.RemoveBinding | src/keybindings.rs:169-173 | every copy of the binding leaves the action's list; an action without a list stays without; other actions untouched |
| KeyBindings.KeyBindingTable.ClearActionBindings | src/keybindings.rs:175-177 | the action keeps an empty list, so it has no primary and shows "Unbound" |
| KeyBindings.KeyBindingTable.GetPrimaryBinding | src/keybindings.rs:179-181 | none iff the action has no binding; otherwise its first binding |
| KeyBindings.KeyBindingTable.GetDisplayString | src/keybindings.rs:183-194 | "Unbound" without a primary binding, otherwise the primary binding's name |
| KeyBindings.BindingName | src/keybindings.rs:185-190 | a key shows as its debug name; mouse buttons and the wheel show as a non-empty name |
| AdvancedWeather.EmergencyFlockingChance | src/advanced_weather.rs:43-50 | the chance of joining an emergency flock, between 0.1 and 0.9 |
| AdvancedWeather.ShelterUrgencyMultiplier | src/advanced_weather.rs:52-59 | the shelter urgency multiplier, between 1 and 3 |
| AdvancedWeather.StormStress | src/advanced_weather.rs:603-608 | the extra stress a storm adds, at most 0.8 and zero exactly for a light storm |
| AdvancedWeather.SeverityTablesIncrease | src/advanced_weather.rs:43-59 | flocking chance, shelter urgency and storm stress all strictly increase with the severity |
| AdvancedWeather.FromCelsius | src/advanced_weather.rs:72-122 | the band keeps the temperature; comfort is in [0, 1], full exactly in 10..25 °C and zero exactly below -10 °C; feeding urgency and activity stay within the table's bounds |
| AdvancedWeather.ComfortPeaksAndHungerFalls | src/advanced_weather.rs:72-122 | comfort never falls with warmth below the comfortable band and never rises above it; feeding urgency never rises with warmth |
| AdvancedWeather.WindSpeedFactor | src/advanced_weather.rs:146-161 | the wind speed factor of a weather, between 0.5 and 2.5 |
| AdvancedWeather.WindFromWeather | src/advanced_weather.rs:146-161 | the wind speed is the base speed scaled by the weather's factor; turbulence stays in [0, 1] and hover difficulty in [1, 3] |
| AdvancedWeather.FlightSpeedModifier | src/advanced_weather.rs:163-167 | the flight speed modifier stays within [0.3, 1.5] |
| AdvancedWeather.StrongerWindNeverFaster | src/advanced_weather.rs:163-167 | a stronger wind never yields a larger flight speed modifier |
| AdvancedWeather.ShelterSpecOf | src/advanced_weather.rs:277-298 | a shelter holds 6 to 25 birds with protection in [0.6, 0.95] and wind resistance in [0.4, 0.9], the top values exactly for a building |
| AdvancedWeather.BuildingIsBestShelter | src/advanced_weather.rs:277-298 | no shelter kind beats a building in capacity, protection or wind resistance |
| AdvancedWeather.DetectSeverity | src/advanced_weather.rs:318-330 | detection never reports an extreme storm; windy weather is severe, snow and rain below 5 °C are moderate, anything else is light |
| AdvancedWeather.StormManager.constructor | src/advanced_weather.rs:207-214 | a new manager starts light with every timer at zero and no warning |
| AdvancedWeather.StormManager.StormDetection | src/advanced_weather.rs:308-358 | timers count down by dt; a storm event is raised exactly when the weather turns dangerous while the current storm is not, and then sets the severity, a duration of 300 to 900 seconds, the remaining time and a 60-second warning; the warning is raised while its timer runs; once the time runs out the storm is back to light with no warning |
| AdvancedWeather.ShelterTolerance | src/advanced_weather.rs:466-472 | the storm tolerance is 0.8 for the hardy species and 0.5 for the rest |
| AdvancedWeather.ShelterStep | src/advanced_weather.rs:456-500 | fear stays in [0, 1] and nothing else internal changes; the bird starts sheltering exactly when it is frightened beyond its tolerance and a free shelter is within 30 units, then targets that shelter with its fear at most one half; otherwise its target is unchanged |
| AdvancedWeather.TemperatureTolerance | src/advanced_weather.rs:515-525 | a species' cold or heat tolerance within [-0.3, 0.3] |
| AdvancedWeather.TemperatureStress | src/advanced_weather.rs:527-528 | the stress of a temperature band on a species, in [0, 1] |
| AdvancedWeather.TemperatureStep | src/advanced_weather.rs:527-544 | hunger stays in [0, 1] and never falls; fear changes only under a stress above one half, which is exactly when a stress event is raised; nothing else changes |
| AdvancedWeather.StressResistance | src/advanced_weather.rs:614-622 | a species' resistance to weather stress, in [0.3, 0.7] |
| AdvancedWeather.TotalStress | src/advanced_weather.rs:603-610 | the combined weather and storm stress never exceeds 1 |
| AdvancedWeather.StressFear | src/advanced_weather.rs:612-626 | fear stays in [0, 1] and never falls under a non-negative stress |
| AdvancedWeather.AsWrittenStormWarningFearOverflows | src/advanced_weather.rs:378 | the unclamped storm-warning increase takes a fear of 0.95 out of [0, 1] |
| AdvancedWeather.StormWarningFearAsWritten | src/advanced_weather.rs:378 | as written the fear always rises, and from above 0.9 it passes 1 |
| AdvancedWeather.StormWarningFear | src/advanced_weather.rs:378 | the clamped increase stays in [0, 1], never lowers a valid fear, and agrees with the written increase wherever that stays in range |
| AdvancedWeather.EmergencyFlockingFear | src/advanced_weather.rs:360-442 | states never change; without a warning nothing changes; with a warning every bird's fear grows by 0.1 clamped to 1 (StormWarningFear, the corrected form of line 378) |
| AdvancedWeather.StormSheltering | src/advanced_weather.rs:444-502 | below a combined urgency of 0.3 no bird changes; otherwise every bird takes exactly one shelter step with what it sees; fear stays in [0, 1] |
| AdvancedWeather.WeatherStress | src/advanced_weather.rs:597-630 | states never change; at a combined stress of 0.1 or less nothing changes; above it every bird's fear takes its species' stress step |
| AdvancedWeather.TemperatureFeedingUrgency | src/advanced_weather.rs:504-548 | states never change; every bird takes one temperature step in the current band, and exactly the birds under stress above one half are reported |
| EnvironmentComponents.BirdActivityModifier | src/environment/components.rs:95-103 | activity in [0.3, 1.0], normal only in clear weather and below 0.6 exactly in rain and snow |
| PredatorPrey.PredatorSpecies | src/predator_prey.rs:274-282 | exactly five species are predators: the two owls, the two hawks and the falcon |
| PredatorPrey.HuntingStyleOf | src/predator_prey.rs:293-299 | the red-tailed hawk and the falcon soar, the Cooper's hawk pursues, the owls ambush and every non-predator perches (corrected form, Findings row 7) |
| PredatorPrey.PreferredPrey | src/predator_prey.rs:338-379 | exactly the predators have preferred prey, and no predator is on any list |
| PredatorPrey.AsWrittenRedTailedHawkShadowed | src/predator_prey.rs:293-299 | as written the red-tailed hawk pursues and shares the Cooper's hawk's prey; the corrected tables differ for it and agree for every other species |
| PredatorPrey.PredatorTraitsOf | src/predator_prey.rs:285-316 | a predator's style and prey come from the tables above, its range is in [250, 500] and 500 only for the falcon, its success rate in [0.5, 0.7] (corrected form, Findings row 7) |
| PredatorPrey.PreyTraitsOf | src/predator_prey.rs:317-331 | chickadees and titmice mob, wrens and nuthatches dive, nobody freezes; the alarm carries 200 to 400 units, 400 exactly for jays and crows |
| PredatorPrey.ClosestIndex | src/predator_prey.rs:113-140 | the chosen candidate, if any, is one within range whose draw fell under its hunt probability |
| PredatorPrey.ClosestNoneIff | src/predator_prey.rs:113-140 | the scan finds nothing exactly when no candidate is considered |
| PredatorPrey.ClosestIsNearest | src/predator_prey.rs:113-140 | the scan's pick is no farther than any considered candidate and strictly nearer than every earlier one |
| PredatorPrey.ClosestIsFirstNearest | src/predator_prey.rs:113-140 | the scan finds nothing exactly when no candidate is considered, and otherwise the nearest considered candidate, the first on a tie |
| PredatorPrey.ClosestIndexStep | src/predator_prey.rs:113-140 | one more candidate replaces the choice exactly when it is considered and strictly closer |
| PredatorPrey.HuntStep | src/predator_prey.rs:99-157 | energy never exceeds 1; non-predators do nothing; the hunt time moves only with an attack, which needs energy 0.3, 30 seconds since the last hunt and a chosen prey, and costs 0.4 energy |
| PredatorPrey.StrikeOnNearestPrey | src/predator_prey.rs:107-143 | a strike falls on a considered candidate nearest of all considered ones, the first of them on a tie; a hungry enough predator past its cooldown holds back only when no candidate is considered |
| PredatorPrey.Predator.constructor | src/predator_prey.rs:312-315 | a new predator has its species' traits, energy 0.8 and no hunt yet (corrected form, Findings row 7) |
| PredatorPrey.Predator.ConsidersPrey | src/predator_prey.rs:119-129 | a candidate passes the scan's check iff it is within attack range and its draw falls under the hunt probability |
| PredatorPrey.Predator.SelectPrey | src/predator_prey.rs:113-140 | the loop returns the candidate the scan specification picks, with its distance, and nothing exactly when the scan picks nothing |
| PredatorPrey.Predator.Hunt | src/predator_prey.rs:99-157 | energy, hunt time and attack are those of one hunt step |
| PredatorPrey.EnergyNeverAboveOne | src/predator_prey.rs:104-105 | whatever a predator's turn does, its energy ends at most 1 |
| PredatorPrey.NoStrikeWithinCooldown | src/predator_prey.rs:108 | a predator that has just struck cannot strike on a turn less than 30 seconds later |
| PredatorPrey.PredatorHunting | src/predator_prey.rs:87-158 | every predator takes exactly one hunt step from its own old energy and last hunt time; the attacks are exactly those steps' attacks in query order (Strikes) |
| PredatorPrey.PredatorViews | src/predator_prey.rs:97-110 | one view per predator, in query order, each its identity, energy and last hunt time |
| PredatorPrey.StrikesFacts | src/predator_prey.rs:87-158 | no more attacks than predators; every attack is made by one of the predators of a predator species, from that predator's position |
| PredatorPrey.StrikesStep | src/predator_prey.rs:87-158 | one more predator's turn appends exactly its own attack to those before it |
| PredatorPrey.HuntTurn | src/predator_prey.rs:99-157 | the predator takes its hunt step from the view it starts in and reports that step's attack |
| PredatorPrey.EscapeState | src/predator_prey.rs:170-203 | scatter flees, freeze rests, mob turns territorial, dive shelters |
| PredatorPrey.Struck | src/predator_prey.rs:170-203 | only fear changes: full for every escape but freezing, 0.8 for freezing |
| PredatorPrey.AttackAlert | src/predator_prey.rs:170-203 | an alarm is raised exactly by scattering and mobbing birds, from the target at the attack's position: urgency 0.9 over the alert range, or 1.0 over one and a half times it |
| PredatorPrey.StruckIsIdempotent | src/predator_prey.rs:170-203 | being struck twice leaves the same blackboard as being struck once |
| PredatorPrey.Find | src/predator_prey.rs:166-168 | the first position of an id, and none exactly when it is absent |
| PredatorPrey.FindBird | src/predator_prey.rs:166-168 | the lookup loop returns the first position of the target's id |
| PredatorPrey.PreyResponse | src/predator_prey.rs:161-206 | every attacked bird with prey traits is struck and takes its escape state; every other bird is unchanged; the alarms are those of the attacks in order |
| PredatorPrey.TargetedExtend | src/predator_prey.rs:164-168 | the targets of one more attack are the earlier targets and the new one |
| PredatorPrey.StrikeTarget | src/predator_prey.rs:164-205 | one attack strikes exactly its target when it has prey traits, leaves every other bird unchanged and raises that attack's alarm |
| PredatorPrey.HearAlert | src/predator_prey.rs:220-231 | only fear changes; beyond the call range nothing changes; within it fear grows with urgency and closeness, capped at 1, and the bird flees once it is above 0.6 |
| PredatorPrey.NearerListenerFearsMore | src/predator_prey.rs:222-231 | of two equally afraid listeners, the nearer one ends at least as afraid |
| PredatorPrey.HearAllFacts | src/predator_prey.rs:209-235 | over any sequence of alarms fear stays at most 1, a fleeing bird keeps fleeing, and a bird hears none of its own calls |
| PredatorPrey.HearOneAlert | src/predator_prey.rs:213-233 | the caller is unchanged and every other bird hears the alarm at its own distance |
| PredatorPrey.Column | src/predator_prey.rs:220-221 | the distances of one bird from each alarm's predator, in alarm order |
| PredatorPrey.AlertCalls | src/predator_prey.rs:209-235 | every bird ends as if it had heard every alarm, in order, at its own distances, skipping its own calls |
| PredatorPrey.SpotPredator | src/predator_prey.rs:238-271 | beyond 300 units nothing changes; any call comes from the prey at the predator's location with urgency 0.7 over 200 units, only on a low call draw; fear never falls and stays at most 1 |
| PredatorPrey.DetectPredator | src/predator_prey.rs:238-271 | every prey takes one spotting step with its own distance and draws, its state kept; the alerts are exactly those steps' calls in query order (Alarms) |
| PredatorPrey.Fears | src/predator_prey.rs:244 | one fear per bird, in order, each that bird's fear |
| PredatorPrey.Boards | src/predator_prey.rs:244 | one blackboard per bird, in order, each that bird's blackboard |
| PredatorPrey.AlarmsFacts | src/predator_prey.rs:238-271 | at most one alert per prey; every alert has the predator's location, urgency 0.7 and range 200, and is called by a prey within 300 units |
| PredatorPrey.AlarmsStep | src/predator_prey.rs:238-271 | one more prey's look appends exactly its own call to those before it |
| PredatorPrey.Look | src/predator_prey.rs:245-268 | the prey's fear becomes its spotting step's fear, the rest of its blackboard and its state kept, and the step's call is returned |
| Text.Lower | src/debug_console.rs:431 | upper-case ASCII letters become lower-case letters and every other character is kept |
| Text.LowerString | src/smart_objects/mod.rs:158-159 | lower-casing keeps the length and lower-cases each character in place |
| Text.LowerStringIdempotent | src/smart_objects/mod.rs:158-159 | lower-casing twice is lower-casing once |
| Text.Contains | src/smart_objects/mod.rs:158-159 | true exactly when the query occurs as a contiguous piece of the text |
| Text.WordLength | src/debug_console.rs:241-245 | the leading run of non-whitespace characters: none of them is whitespace and the next character, if any, is |
| Text.SplitWhitespace | src/debug_console.rs:241-245 | every word is non-empty and free of whitespace, and there are no words exactly when the text is all whitespace |
| Text.SplitPaddedWord | src/debug_console.rs:241-245 | a single word with whitespace around it splits into exactly that word |
| Text.WordLengthOfWord | src/debug_console.rs:241-245 | a word followed by whitespace or nothing has its own length as its leading run |

## Left out

- Rendering, UI construction, audio, particles, lighting, text of messages and tooltips, and colours: presentation, not rule logic.
- Saving, loading, settings files, the Steam client calls and workshop upload: file and network I/O.
- Random numbers: every `rand` draw is an input, so the model states what happens for each draw, not how often.
- Vector geometry: positions are carried as values but distances are inputs; movement toward targets, fleeing, wandering, migration movement and wind drift (`wind_flight_effects_system`) are not modelled.
- Emergency flock formation (leader choice, grouping of up to twelve birds, at most three flocks) and shelter targeting in `emergency_flocking_system`: only its fear update is modelled, because the grouping depends on random draws and positions.
- Wind direction in `WindEffects::from_weather`: only its strength and its effect on flight are modelled.
- `Weather::shelter_urgency` and `Weather::weather_fear_factor` are not part of this model; the values they give are inputs.
- The temperature curve of the temperature manager (a sine of the hour) is not modelled; the current temperature is an input.
- The predator manager's attack-cooldown timer and threat level, which no modelled rule reads.
- `predator_detection_system`'s outer loop over predators: the model gives one predator's pass over every prey, and a whole frame is that pass repeated.
- The starting positions and random qualities of `setup_nocturnal_sites` and `setup_weather_shelters`; site qualities are inputs.
- `generate_daily_challenges`, which draws challenges at random.
- The console's `population`, `test status` and `test list` commands, which only format text; and the key-code-to-character table of the text input, whose characters are an input.
- The key-binding `handle_*` systems and the keyboard and mouse state: which keys are down is an input to `is_action_pressed`.
- Extra mouse buttons (`MouseButton::Other` with its numeric code): the model's buttons are left, right, middle, back and forward, which are all the default bindings and the display names use.
- The creation kit's display names, tooltips, colours, unique-id timestamps and workshop export.
- Case folding beyond ASCII: lower-casing is modelled for ASCII letters only.
- Integer widths: `u32` and `u64` counters (photos taken, challenge progress, Steam statistics, currency) are unbounded; the game's counters would need billions of events to wrap.
- Floating point: NaN and rounding are not modelled. Ranges that the game divides by (object interaction ranges, attack and call ranges) are required to be positive.
- Environment.TimeProgression: requires a positive time speed, which the game divides by; like the game it wraps the hour at most once per frame, so a frame longer than a day is not modelled.
- Console.TextInputSystem: the frame's keys are a record of flags plus the typed characters; reading them from Bevy's keyboard state is not modelled.
- Nocturnal.RoostSelectionSystem: does not state that the migration flag is left alone (its per-bird step RoostTurn does), because stating it across the loop made the proof too costly.

## Findings

| source | as written | input that shows it | evidently intended | confidence | as-written member | corrected member |
|---|---|---|---|---|---|---|
| src/bird_ai/systems.rs:114-125 | the target is chosen by hunger > 0.5, then thirst > 0.5, then bathing, independently of which rule of the behaviour tree chose MovingToTarget | hunger 0.6, thirst 0.6, only Drink cached: the tree says MovingToTarget (moderate thirst) but the target is None, and the arrival rule never moves the bird on | the target is the cached source of the rule that fired | high, not executed | BirdAiSystems.SelectTargetAsWritten, BirdAiSystems.AsWrittenTargetMissing | BirdAiSystems.SelectTarget |
| src/nocturnal_behaviors.rs:324 | the owl hunting cooldown compares `hour - last_hunt_time < 2.0` on the hour of the day, with no wrap at midnight | last hunt at 22.5: within the prime hunting window the hour never reaches 24.5, so the owl never hunts again | hours since the last hunt counted across midnight | high, not executed | Nocturnal.AsWrittenLateHuntLocksOut | Nocturnal.HoursSince, Nocturnal.LateHunterHuntsAgain |
| src/notifications/resources.rs:25-32 | `pop` counts a slot before finding out whether the queue has anything, and the spawner calls it until it returns None | max 3, count 0, three frames with nothing queued: the count reaches 3 with nothing on screen, no completion can free a slot, and no notification is ever shown again | only a notification actually shown takes a slot | high, not executed | Notifications.NotificationQueue.PopAsWritten, Notifications.NotificationQueue.SpawnerSystemAsWritten, Notifications.AsWrittenCountsPhantomSlot, Notifications.AsWrittenIdleFramesLockOut | Notifications.NotificationQueue.Pop, Notifications.NotificationQueue.SpawnerSystem, Notifications.IdleFrameKeepsCount, Notifications.FrameMakesProgress |
| src/notifications/resources.rs:5-10 | the queue derives `Default`, so the plugin's `init_resource` installs one with `max_concurrent` 0, while `new` sets 3 | any notification pushed into the installed queue: `pop` always returns None | the queue the plugin installs allows three at once | high, not executed | Notifications.NotificationQueue.Default, Notifications.DefaultQueueShowsNothing | Notifications.NotificationQueue.New, Notifications.NewQueueShowsFirst |
| src/environment/resources.rs:74-91 | the derived starting seasonal state holds six species at 1.0 with migration off, and the time system rebuilds it only when the season changes | the clock starts on day 120, which is spring: the common crow, European starling and common grackle, the yellow warbler, red-winged blackbird and brown thrasher are missing, the robin is at 1.0 instead of 1.2, and migration is off until fall (summer keeps it off) | the starting state is the one for the starting day's season | medium, not executed | Environment.SeasonalState.constructor, Environment.AsWrittenStartOutOfSeason | Environment.SeasonalState.ForDay |
| src/advanced_weather.rs:378 | every bird's fear grows by 0.1 while a storm warning is up, with no clamp | fear 0.95 becomes 1.05, outside [0, 1] | the increase clamped to 1 like every other fear update | high, not executed | AdvancedWeather.AsWrittenStormWarningFearOverflows | AdvancedWeather.StormWarningFear |
| src/predator_prey.rs:293-299 | the red-tailed hawk is matched together with the Cooper's hawk before its own arm, in the hunting style and in the preferred prey (src/predator_prey.rs:338-352) | a red-tailed hawk: it pursues small songbirds instead of soaring after starlings, doves and jays | each hawk's own arm applies | high, not executed | PredatorPrey.AsWrittenRedTailedHawkShadowed | PredatorPrey.HuntingStyleOf, PredatorPrey.PreferredPrey |
