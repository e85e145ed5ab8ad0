# Space odyssey: a verified model of the game's procedural and bookkeeping logic

This project models the logic of the space-odyssey three.js game that does not
depend on rendering. It covers:

- **`Goldberg`** (`goldberg.dfy`). The icosphere mesh builder `createGoldbergPolyhedron`.
  It starts from a fixed 12-vertex, 20-face icosahedron, splits every face into
  four `detail` times, and deduplicates the vertices through a key-to-index map.
  It then pushes each vertex outwards or inwards by a piecewise displacement
  driven by a noise value. The builder is a class whose fields are the growing
  position list, the index list, the key map and the counter.
- **`Noise`** (`noise.dfy`). The simplex-noise generator `Perlin`. It covers:
  - the random byte table `p` and its doubled copy `perm`, filled by loops over arrays;
  - the case table that picks the simplex;
  - the masked nested lookups and the gradient table;
  - the noise function itself over exact reals.
- **`SolarSystem`** (`solar_system.dfy`). `generateSolarSystem`: one star, one to ten
  planets each directly followed by up to four moons, then 50 to 99 asteroids.
  Each body is appended to the caller's list. The draws made by the body
  constructors (two spin rates, and an orbit speed for planets and moons) are
  part of the draw layout.
- **`NameGenerator`** (`name_generator.dfy`). `generateRandomName`: a syllable
  count, a weighted pattern per syllable chosen by a cumulative scan, one letter
  per pattern position, and the first letter upper-cased.
- **`Inventory`** (`inventory.dfy`). The capacity-limited `InventoryManager` and
  the two-field `Collectible` record.
- **`Fuel`**, **`SpacecraftFuel`**, **`LegacyFuel`** (`fuel.dfy`). The two fuel
  gauges. The spacecraft gauge refuels up to its `capacity` field; the older one
  refuels up to the literal 1000.
- **`Events`** (`events.dfy`). The `EventManager` listener registry.
  `unsubscribe` drops every registration of a listener.
- **`GameConfiguration`** (`game_config.dfy`). `GameConfig` covers:
  - the defaults;
  - `initAll`, `resetAll` and `resetProperty`;
  - the setters that store a value and then dispatch `'<name>Changed'`;
  - its own listener registry, whose `removeEventListener` removes only the
    first registration of a callback.

The random source (`Math.random` and `getRandomNumber`) is a parameter: a
stream `s: nat -> real` of draws in [0, 1) and a cursor `at` (module `Draws`,
`draws.dfy`). The solar-system and name generators return the cursor after the
last draw they used. The `Perlin` constructor returns no cursor: it always
uses the 256 draws from `at` to `at + 255`.
A listener call is not executed. `Emit` and `DispatchEvent` return the calls
they make, in order, as `Call(listener, data)` records.

## Model

| member | source | states |
|---|---|---|
| Draws.Pick | src/utils/perlin.js:10 | `floor(r * n)` for a draw r in [0,1) is an index below n, so every table lookup driven by a draw is in bounds |
| Goldberg.BaseVertices | src/utils/goldbergPolygedron.js:21-38 | the base table has exactly twelve vertices, the normalised (±1, ±t, 0) points and their rotations |
| Goldberg.BaseFacesValid | src/utils/goldbergPolygedron.js:41-62 | there are 20 base faces, each made of three distinct vertex indices in 0..11 |
| Goldberg.AroundShape | src/utils/goldbergPolygedron.js:41-62 | for each of the 12 vertices, the certificate lists five faces in strictly increasing order |
| Goldberg.AroundSound | src/utils/goldbergPolygedron.js:41-62 | every face the certificate lists around a vertex has that vertex as a corner |
| Goldberg.AroundComplete | src/utils/goldbergPolygedron.js:41-62 | every face is listed around each of its three corners |
| Goldberg.IncreasingCard | src/utils/goldbergPolygedron.js:41-62 | a strictly increasing list has as many distinct elements as entries (this turns the certificate into a face count) |
| Goldberg.FiveFacesAround | src/utils/goldbergPolygedron.js:41-62 | each base vertex is a corner of exactly five faces |
| Goldberg.LeavesCount | src/utils/goldbergPolygedron.js:89-107 | subdividing a triangle with depth ≤ 0 emits one triangle; with depth d > 0 it emits 4^d triangles |
| Goldberg.LeavesSplit | src/utils/goldbergPolygedron.js:99-106 | a split triangle emits the triangles of its four parts, in call order: the three corner parts, then the middle one |
| Goldberg.FaceLeavesCount | src/utils/goldbergPolygedron.js:110-116 | the first n base faces emit n · 4^max(detail,0) triangles |
| Goldberg.KeyIndexSound | src/utils/goldbergPolygedron.js:74-83 | every key in the vertex map maps to a stored vertex that has that key |
| Goldberg.KeyIndexComplete | src/utils/goldbergPolygedron.js:74-83 | when stored vertices have distinct keys, each one's key maps to its own index |
| Goldberg.KeyIndexSize | src/utils/goldbergPolygedron.js:80-82 | the map holds exactly one key per stored vertex |
| Goldberg.Stored | src/utils/goldbergPolygedron.js:74-83 | adding one corner keeps the stored vertices as a prefix and appends at most one vertex; afterwards the corner's key is in the map |
| Goldberg.StoreAllAppend | src/utils/goldbergPolygedron.js:103-116 | adding two runs of corners one after the other stores what adding their concatenation stores |
| Goldberg.StoreAllMembers | src/utils/goldbergPolygedron.js:74-83 | adding a run of corners keeps the earlier vertices as a prefix, stores at most one vertex per corner, stores only earlier vertices or corners, and leaves every corner's key in the map |
| Goldberg.KeyIndexGrows | src/utils/goldbergPolygedron.js:80-82 | appending vertices never removes a key from the map |
| Goldberg.DistinctKeysPairwise | src/utils/goldbergPolygedron.js:76-82 | vertices stored only under unseen keys have pairwise different keys |
| Goldberg.MeshBuilder.constructor | src/utils/goldbergPolygedron.js:65-68 | the builder starts with no positions, indices or keys, a zero counter, and its invariant holds |
| Goldberg.MeshBuilder.MapMatchesPositions | src/utils/goldbergPolygedron.js:67-83 | under the invariant: the counter equals the number of keys; map and position list are mutually inverse on keys; equal keys give the same index and distinct keys distinct indices |
| Goldberg.MeshBuilder.AddVertex | src/utils/goldbergPolygedron.js:74-83 | a known key returns its stored index and changes nothing; a new key appends the vertex, maps the key to the old counter, returns that index and increments the counter; the position list is exactly `Stored` of the old one and only grows; the invariant is kept |
| Goldberg.MeshBuilder.EmitTriangle | src/utils/goldbergPolygedron.js:92-95 | pushes the three indices and nothing else; each names a stored vertex keyed like its corner |
| Goldberg.MeshBuilder.SubdivideTriangle | src/utils/goldbergPolygedron.js:89-107 | keeps the invariant; the emitted indices follow the recursive subdivision, each naming a stored vertex keyed like the corner it was emitted for; the new position list is the old one with each emitted corner whose key is not yet stored appended, in emission order; old positions and old indices stay a prefix |
| Goldberg.MeshBuilder.SplitTriangle | src/utils/goldbergPolygedron.js:98-106 | the recursive case: the four parts are subdivided in source order, each at depth − 1, with the same emitted corners, stored vertices and prefix guarantees |
| Goldberg.MeshBuilder.SubdividePair | src/utils/goldbergPolygedron.js:103-106 | two consecutive recursive calls emit the corners of the first part, then of the second, and store the vertices of their concatenation; old positions and indices stay a prefix |
| Goldberg.SubdivideFaces | src/utils/goldbergPolygedron.js:110-116 | subdividing every base face in table order emits exactly the triangles of the face-by-face subdivision, stores the vertices of those corners one by one, and keeps the old indices as a prefix |
| Goldberg.Threshold | src/utils/goldbergPolygedron.js:125-132 | the displacement factor is 0 exactly on [-0.5, 0.5]; it is positive exactly for noise above 0.5; when nonzero it is beyond ±0.6 |
| Goldberg.ThresholdOdd | src/utils/goldbergPolygedron.js:125-132 | the displacement factor is symmetric: negating the noise negates the factor |
| Goldberg.ThresholdMonotone | src/utils/goldbergPolygedron.js:125-132 | more noise never gives a smaller displacement factor |
| Goldberg.PlacedOnSphere | src/utils/goldbergPolygedron.js:133-134 | with roughness 0, or noise within [-0.5, 0.5], a vertex is scaled by exactly `radius` |
| Goldberg.DisplaceVertex | src/utils/goldbergPolygedron.js:121-137 | one loop pass scales vertex i in place and writes its three coordinates at 3i..3i+2; other array entries, the index list, the key map and the counter are untouched |
| Goldberg.Displace | src/utils/goldbergPolygedron.js:120-138 | the array has 3 entries per vertex, holding the displaced coordinates in vertex order; every position is displaced in place; the index list, the key map and the counter are unchanged |
| Goldberg.CreateGoldbergPolyhedron | src/utils/goldbergPolygedron.js:16-149 | the index list has 60 · 4^max(detail,0) entries; stored vertices have distinct keys; every index names a stored vertex keyed like the corner the subdivision asked for; the stored vertices are exactly the first corner emitted under each key, in emission order, so each is a corner of the subdivision; the position array holds 3 displaced coordinates per vertex |
| Noise.Grad3Shape | src/utils/perlin.js:3-7 | there are twelve gradients, each three entries with exactly one zero and the others ±1 |
| Noise.Gradient | src/utils/perlin.js:3-7 | any index 0..11 yields such a gradient |
| Noise.Dot | src/utils/perlin.js:18-20 | the dot product vanishes at the origin |
| Noise.DotGradient | src/utils/perlin.js:18-20 | against a gradient, `dot` is bounded by the magnitudes of the two coordinates the gradient does not zero |
| Noise.DotManhattan | src/utils/perlin.js:18-20 | against a gradient, `dot` is bounded by the sum of the three coordinate magnitudes |
| Noise.LowByte | src/utils/perlin.js:61-63 | `i & 255` lies in 0..255, is i itself for i in 0..255, and differs from i by a multiple of 256 (negative i included) |
| Noise.Corners | src/utils/perlin.js:41-49 | the first corner offset has exactly one 1, at a largest of x0/y0/z0; the second has exactly two 1s, missing only at a smallest; the second dominates the first componentwise |
| Noise.NestedIndex | src/utils/perlin.js:64-67 | a masked coordinate plus a 0/1 offset plus a table byte indexes `perm` at 511 or below |
| Noise.Fourth | src/utils/perlin.js:72-73 | squaring `t` twice gives a non-negative weight |
| Noise.Contribution | src/utils/perlin.js:70-89 | with t the falloff `0.5 - x² - y² - z²`, a corner whose t is negative contributes exactly 0, and so does a corner whose dot product is 0; against a gradient, every corner's contribution lies in [-1/8, 1/8] |
| Noise.FourthBound | src/utils/perlin.js:71-73 | a falloff t in [0, 1/2] gives a weight t^4 of at most 1/16 |
| Noise.DotBound | src/utils/perlin.js:18-20 | against a gradient, a point in [-1, 1]^3 has a dot product in [-2, 2] |
| Noise.Perlin.constructor | src/utils/perlin.js:2-16 | `p[i]` is `floor(draw·256)` for the i-th draw, every byte is in 0..255, and `perm` has 512 entries with `perm[i] == p[i & 255]` |
| Noise.Perlin.GradIndex | src/utils/perlin.js:64-67 | every gradient index `gi0`..`gi3` is in 0..11, so the nested lookups and the `grad3` lookup stay in bounds |
| Noise.Perlin.CellNoise | src/utils/perlin.js:41-90 | the sum of the four corner contributions, scaled by 72, lies in [-36, 36] |
| Noise.Perlin.Noise | src/utils/perlin.js:22-91 | the noise value lies in [-36, 36] for every point and every table |
| Noise.Perlin.CellNoiseAtOrigin | src/utils/perlin.js:41-90 | at the origin of a cell the summed contribution is exactly 0 |
| Noise.GridVertexSkew | src/utils/perlin.js:24-37 | skewing a simplex-grid vertex lands on its own integer cell, and unskewing leaves a zero offset |
| Noise.Perlin.NoiseAtGridVertex | src/utils/perlin.js:22-91 | `noise` is 0 at every vertex of the simplex grid, whatever the table |
| SolarSystem.GenerateSolarSystem | src/components/systems/solarSystem.js:6-45 | the list is only appended to: the result is the prior list followed by the flattened generated system; the returned cursor is where the system's draws end |
| SolarSystem.AppendPlanets | src/components/systems/solarSystem.js:13-34 | the planet loop appends each planet group in turn: the planet, then its moons |
| SolarSystem.AppendPlanet | src/components/systems/solarSystem.js:14-33 | one pass appends the planet sampled at the cursor, then exactly its own moons |
| SolarSystem.AppendMoons | src/components/systems/solarSystem.js:24-33 | the moon loop appends `numMoons` moons sampled against the planet's size, 8 draws each |
| SolarSystem.AppendAsteroids | src/components/systems/solarSystem.js:36-44 | one draw sets the asteroid count, then each asteroid is appended with 7 draws |
| SolarSystem.GroupInRangeAt | src/components/systems/solarSystem.js:14-29 | a planet has size in [1,3), axis in [20,70), eccentricity in [0,0.2), period in [20,70); it has at most 4 moons, each of size [0.1,0.6), period [5,15) and axis ≥ planet size + moon size |
| SolarSystem.GroupsInRange | src/components/systems/solarSystem.js:13-34 | every generated planet group is in those ranges |
| SolarSystem.AsteroidsInRange | src/components/systems/solarSystem.js:37-41 | every asteroid has size in [0.1,0.3) and each coordinate in [-50,50) |
| SolarSystem.SystemShape | src/components/systems/solarSystem.js:8-41 | the star has size 5 and colour 0xffff00; there are 1 to 10 planets and 50 to 99 asteroids; every planet, moon and asteroid is within its range |
| SolarSystem.FlattenGroupsLength | src/components/systems/solarSystem.js:13-34 | the planet loop appends one body per planet plus one per moon |
| SolarSystem.GroupLayout | src/components/systems/solarSystem.js:21-32 | each planet sits in the flattened list directly before its own moons |
| SolarSystem.SystemLayout | src/components/systems/solarSystem.js:10-43 | the star comes first; each planet comes directly before its own moons; the asteroids come last, after the last planet's moons; the list grows by 1 + planets + all moons + asteroids |
| SolarSystem.GroupsDraws | src/components/systems/solarSystem.js:13-34 | each planet group uses 9 to 41 draws |
| SolarSystem.GroupsMoonTotal | src/components/systems/solarSystem.js:23-24 | each planet group has at most 4 moons, so n groups have at most 4n |
| SolarSystem.SystemDraws | src/components/systems/solarSystem.js:6-45 | one generation uses between 363 and 1107 draws |
| NameGenerator.SyllableTablesShape | src/utils/nameGenerator.js:31-32 | eight patterns with eight weights; each pattern has 1 to 4 letters, each 'v' or 'c' |
| NameGenerator.WeightsTotal | src/utils/nameGenerator.js:32 | the weights add up to 1 |
| NameGenerator.TypeIndexFirst | src/utils/nameGenerator.js:39-49 | the scan stops at the first pattern whose cumulative weight is at least the draw; it runs past the end only if none is |
| NameGenerator.TypeForDraw | src/utils/nameGenerator.js:39-49 | the pattern stays empty exactly when the draw exceeds 1; a draw in [0,1) always gets a pattern |
| NameGenerator.TypeForLength | src/utils/nameGenerator.js:31-49 | for a draw in [0,1), the chosen pattern has 1 to 4 letters |
| NameGenerator.ChooseSyllableType | src/utils/nameGenerator.js:39-49 | the weight loop with its `break` picks the first-qualifying pattern |
| NameGenerator.SyllableCount | src/utils/nameGenerator.js:28 | the syllable count is 1 to 3 for a draw in [0,1) |
| NameGenerator.LetterTablesShape | src/utils/nameGenerator.js:24-25 | five vowels and twenty-one consonants |
| NameGenerator.LetterClasses | src/utils/nameGenerator.js:24-25 | a letter is in the vowel table exactly when it is a vowel, and likewise for consonants |
| NameGenerator.LetterKind | src/utils/nameGenerator.js:53-57 | a 'v' position takes the vowel at `floor(r·5)`; any other takes the consonant at `floor(r·21)`; both are in bounds |
| NameGenerator.LettersFollow | src/utils/nameGenerator.js:52-58 | a syllable's letters follow its pattern: vowels at 'v' positions, consonants at 'c' positions |
| NameGenerator.FollowsAppend | src/utils/nameGenerator.js:37-59 | names that follow their patterns still do after syllables are appended |
| NameGenerator.RunSize | src/utils/nameGenerator.js:37-59 | k syllables use k draws plus one per letter; they add as many letters as pattern positions, between k and 4k |
| NameGenerator.NameDraws | src/utils/nameGenerator.js:28-58 | the draws consumed are 1 + Σ over syllables of (1 + pattern length) |
| NameGenerator.NameLength | src/utils/nameGenerator.js:28-31 | a name has 1 to 12 letters, one per pattern position |
| NameGenerator.Upper | src/utils/nameGenerator.js:62 | a lower-case letter a-z becomes its upper-case form; any other character is unchanged |
| NameGenerator.Capitalize | src/utils/nameGenerator.js:62 | only the first character is upper-cased, the rest is kept, and an empty string stays empty |
| NameGenerator.AppendLetters | src/utils/nameGenerator.js:52-58 | the letter loop appends the pattern's letters, one draw each |
| NameGenerator.AppendSyllables | src/utils/nameGenerator.js:37-59 | the syllable loop builds the specified text and cursor, and the text keeps following the patterns |
| NameGenerator.GenerateRandomName | src/utils/nameGenerator.js:22-63 | the name is the capitalised generated text: 1 to 12 letters, an upper-case first letter, the rest following the patterns |
| Inventory.Sum | src/systems/inventoryManager.js:103-105 | the reduce over the values, in key order; with every amount non-negative the total is non-negative |
| Inventory.SumAppend | src/systems/inventoryManager.js:103-105 | storing a new type adds its amount to the total |
| Inventory.SumOutside | src/systems/inventoryManager.js:103-105 | changing a type that is not enumerated leaves the total alone |
| Inventory.SumUpdate | src/systems/inventoryManager.js:103-105 | changing one type's amount changes the total by exactly the difference |
| Inventory.InventoryManager.constructor | src/systems/inventoryManager.js:25-28 | a fresh inventory is empty, its total is 0, and the capacity is the one given |
| Inventory.InventoryManager.Count | src/systems/inventoryManager.js:47 | reading a type gives its stored amount; a nonzero reading means the type has an entry |
| Inventory.InventoryManager.GetTotalResources | src/systems/inventoryManager.js:103-105 | the total is 0 for an empty inventory and non-negative while every amount is |
| Inventory.InventoryManager.Store | src/systems/inventoryManager.js:57 | an assignment sets the type's amount, appends an unseen type to the key order, and changes the total by exactly the difference |
| Inventory.InventoryManager.Touch | src/systems/inventoryManager.js:47-49 | a type without an entry, or with a zero entry, gets a 0 entry; nothing else changes, nor does the total |
| Inventory.InventoryManager.AddResource | src/systems/inventoryManager.js:46-59 | it adds exactly when total + amount ≤ capacity. On success only that type changes, growing by the amount. On refusal all amounts are unchanged, but an unseen type keeps a 0 entry. A total within capacity stays within it |
| Inventory.InventoryManager.RemoveResource | src/systems/inventoryManager.js:79-92 | it removes exactly when the type has a nonzero entry of at least `amount`. On success only that type decreases, by the amount. On refusal nothing changes. The total never grows for a non-negative amount |
| Fuel.AfterConsume | src/components/spacecraft/fuelManager.js:37-38 | the level after burning is `max(fuel − rate·amount, 0)`: never negative, and positive exactly when the fuel exceeded the burn |
| Fuel.AfterRefuel | src/components/spacecraft/fuelManager.js:48-49 | the level after refuelling is `min(fuel + amount, limit)`, never above the limit |
| Fuel.ConsumeTwice | src/components/spacecraft/fuelManager.js:36-40 | at a non-negative rate, two burns leave the same level as one burn of their sum |
| Fuel.RefuelTwice | src/components/spacecraft/fuelManager.js:47-50 | two non-negative refuels fill as far as one refuel of their sum |
| Fuel.GaugeStaysInRange | src/components/spacecraft/fuelManager.js:36-50 | a level in [0, limit] stays there under a non-negative burn or refuel; burning never raises it and refuelling never lowers it |
| SpacecraftFuel.FuelManager.constructor | src/components/spacecraft/fuelManager.js:11-29 | capacity, level and rate are the ones given; capacity and rate are never changed afterwards |
| SpacecraftFuel.FuelManager.ConsumeFuel | src/components/spacecraft/fuelManager.js:36-40 | the level becomes `max(old − rate·amount, 0)`; it returns true exactly when fuel is left |
| SpacecraftFuel.FuelManager.Refuel | src/components/spacecraft/fuelManager.js:47-50 | the level becomes `min(old + amount, capacity)`, so it never exceeds the capacity |
| SpacecraftFuel.FuelManager.GetFuelLevel | src/components/spacecraft/fuelManager.js:56-58 | returns the level and changes nothing |
| LegacyFuel.FuelManager.constructor | src/components/fuelManager.js:2-5 | level and rate are the ones given; the rate is never changed afterwards |
| LegacyFuel.FuelManager.ConsumeFuel | src/components/fuelManager.js:7-14 | the level becomes `max(old − rate·amount, 0)`; it returns true exactly when fuel is left |
| LegacyFuel.FuelManager.Refuel | src/components/fuelManager.js:16-19 | the level becomes `min(old + amount, 1000)`, so it never exceeds 1000 |
| LegacyFuel.FuelManager.GetFuelLevel | src/components/fuelManager.js:21-23 | returns the level and changes nothing |
| Events.CallsOf | src/systems/eventManager.js:25 | `forEach` calls each listener once, in order, with the data |
| Events.WithoutMembers | src/systems/eventManager.js:18 | the filter keeps exactly the listeners other than the removed one |
| Events.WithoutAppend | src/systems/eventManager.js:18 | the filter keeps order: filtering a concatenation filters each part |
| Events.WithoutAbsent | src/systems/eventManager.js:18 | filtering out a listener that is not there changes nothing |
| Events.EmitAfterSubscribe | src/systems/eventManager.js:6-26 | after `subscribe`, `emit` calls the earlier listeners, then the new one last |
| Events.OtherEventsUnchanged | src/systems/eventManager.js:6-19 | `subscribe` and `unsubscribe` leave every other event's listeners as they were |
| Events.EmitAfterUnsubscribe | src/systems/eventManager.js:14-26 | after `unsubscribe`, `emit` never calls that listener for that event |
| Events.SubscribeThenUnsubscribe | src/systems/eventManager.js:6-19 | unsubscribing a just-subscribed listener leaves the event as unsubscribing alone would |
| Events.UnsubscribeTwice | src/systems/eventManager.js:14-19 | a second `unsubscribe` of the same listener changes nothing |
| Events.EventManager.constructor | src/systems/eventManager.js:2-4 | the registry starts empty |
| Events.EventManager.Subscribe | src/systems/eventManager.js:6-12 | appends the listener to the end of the event's list, creating the list when missing; other events are untouched |
| Events.EventManager.Unsubscribe | src/systems/eventManager.js:14-19 | an event with no registered list (other than the inherited Object.prototype names, see "## Left out") is left alone; otherwise every registration of the listener is dropped and the rest keep their order |
| Events.EventManager.Emit | src/systems/eventManager.js:21-26 | calls the event's listeners in subscription order, once per registration; an event with no registered list (other than the inherited Object.prototype names, see "## Left out") calls nothing; the registry is not changed |
| GameConfiguration.DefaultsFacts | src/systems/configs/gameConfig.js:8-31 | there are 22 defaults; `cameraFar` defaults to 2048 · 4 = 8192 |
| GameConfiguration.ObservedDefaults | src/systems/configs/gameConfig.js:130-310 | every defaulted property except the three camera follow offsets has a setter that dispatches |
| GameConfiguration.AssignMerges | src/systems/configs/gameConfig.js:36-38 | after `Object.assign`, every defaulted property holds its default (the last entry for a name wins), and other properties keep their values |
| GameConfiguration.AssignTwice | src/systems/configs/gameConfig.js:40-43 | assigning the defaults again leaves the values as they were |
| GameConfiguration.AssignCallsUnheard | src/systems/configs/gameConfig.js:6-38 | with no listeners registered, the constructor's `initAll` notifies no one |
| GameConfiguration.IndexOf | src/systems/configs/gameConfig.js:115 | `indexOf` returns −1 exactly when the callback is absent, and otherwise the position of its first occurrence |
| GameConfiguration.RemoveFirstSpec | src/systems/configs/gameConfig.js:115-118 | removing an absent callback changes nothing; removing a present one removes exactly one occurrence |
| GameConfiguration.RemoveOneOfTwo | src/systems/configs/gameConfig.js:115-118 | a callback registered twice is still registered after one removal |
| GameConfiguration.AddThenRemove | src/systems/configs/gameConfig.js:106-119 | adding a callback that was not registered, then removing it, restores the event's list |
| GameConfiguration.GameConfig.constructor | src/systems/configs/gameConfig.js:6-34 | a new config has no listeners, and every defaulted property holds its default |
| GameConfiguration.GameConfig.SetProperty | src/systems/configs/gameConfig.js:130-137 | a setter stores the value, which the getter then returns. An observed setter then dispatches `'<name>Changed'` with the value; the offset properties dispatch nothing |
| GameConfiguration.GameConfig.SetCameraFollowOffset | src/systems/configs/gameConfig.js:243-247 | sets the three offset properties to the vector's components and notifies no one |
| GameConfiguration.GameConfig.AssignAll | src/systems/configs/gameConfig.js:37 | `Object.assign` writes the entries in order through the setters: the values are merged, and the dispatches are those of each write in turn |
| GameConfiguration.GameConfig.InitAll | src/systems/configs/gameConfig.js:36-38 | every defaulted property is set to its default, with the observed setters' dispatches in literal order |
| GameConfiguration.GameConfig.ResetAll | src/systems/configs/gameConfig.js:40-43 | every defaulted property is restored to its default, with the same dispatches |
| GameConfiguration.GameConfig.ResetProperty | src/systems/configs/gameConfig.js:45-49 | a defaulted property is set to its default through its setter; an unknown property is left alone and notifies no one |
| GameConfiguration.GameConfig.AddEventListener | src/systems/configs/gameConfig.js:106-111 | appends the callback to the event's list, creating it when missing; values are untouched |
| GameConfiguration.GameConfig.RemoveEventListener | src/systems/configs/gameConfig.js:113-119 | an event with no registered list (other than the inherited Object.prototype names, see "## Left out"), or a callback not registered, changes nothing; otherwise only the first registration is removed |
| GameConfiguration.GameConfig.DispatchEvent | src/systems/configs/gameConfig.js:121-128 | calls each registered callback in order with the data; an event with no registered list (other than the inherited Object.prototype names, see "## Left out") calls nothing |

## Left out

- Floating point. All coordinates, weights, sizes and fuel levels are exact reals. Consequences:
  - rounding in the displacement and noise arithmetic is not modelled;
  - rounding in the cumulative syllable weights is not modelled; in floats these sums differ from the exact ones only at boundary draws;
  - the noise value is only bounded by 36 in magnitude (see below).
- Goldberg.CreateGoldbergPolyhedron: several float steps are function parameters, so nothing is proved about their geometry:
  - the golden ratio `t`, a square root;
  - vector normalisation;
  - the `toFixed(5)` key string;
  - the noise at a vertex.
- `computeVertexNormals` and `computeBoundingSphere` are three.js geometry calls; they are not part of this model.
- The `BufferGeometry` itself is not built. The model returns the position array and the index list that are handed to it.
- Goldberg.MeshBuilder.SubdivideTriangle: emitted triangles are related to the requested corners through their keys, so vertices merged by `toFixed(5)` count as equal.
- Randomness:
  - `Math.random`, and `getRandomNumber` from src/utils/random.js (a seeded-random wrapper), become an explicit stream of draws in [0, 1);
  - the seeding library is not part of this model.
- SolarSystem.SystemShape: the Asteroid constructor calls `super.addPhysics()` (src/components/celestialBody/asteroid.js:25), and its `initCelesitalDetails` calls `super.initCelesitalDetails()`. The base class in src/components/celestialBody/celestialBody.js defines neither. As written, the first asteroid therefore throws a TypeError, after `generateSolarSystem` has already appended the star, planets and moons to the caller's list. The model's asteroid tail, and the 50 to 99 asteroids of `SystemShape`, describe the intended program, in which these calls draw nothing. The physics wrapper (Ammo.js) is not part of this model.
- Events.EventManager.Subscribe, Unsubscribe and Emit (with `Subscribed`, `Unsubscribed` and `Emitted`), GameConfiguration.GameConfig.AddEventListener, RemoveEventListener and DispatchEvent, and Inventory.InventoryManager.Touch and AddResource: the registries and the resource table are maps over all strings. The source keeps them in plain `{}` objects, which inherit the Object.prototype names ("toString", "constructor", "__proto__" and the like). On such a name the source differs from the model:
  - `subscribe` and `addEventListener` call `push` on an inherited function and throw;
  - `emit` and `dispatchEvent` call `forEach` on it and throw, where the model calls nothing;
  - `unsubscribe` and `removeEventListener` call `filter` and `indexOf` on it and throw, where the model changes nothing;
  - `addResource` finds an inherited entry present, and `+=` then concatenates strings.
- GameConfiguration.GameConfig.SetProperty: stands for the setters of the defaulted and accessor names only. In JavaScript, writing a name such as "listeners" or a backing field such as "_chunkSize" would overwrite the object's own state; in the model every name is a separate key of the value map.
- Scene handling (`scene.add`, meshes, materials and lights) is left out; the generated bodies are the generator's own records.
- Planet and moon constructors ignore the sampled orbit arguments. The records keep them because the generator samples them.
- NameGenerator.Upper: upper-cases only a-z. JavaScript's `toUpperCase` also maps other Unicode letters, which the generator never produces.
- Inventory: amounts are integers. Fractional and non-numeric amounts are not modelled, nor is JavaScript's `+=` on a missing key.
- Inventory.InventoryManager.AddResource: the "not enough capacity" message on `console.error` is not modelled. The same holds for all `console` logging in the event, fuel and config code.
- Events.EventManager.Emit: listener calls are returned as records, not made. What a listener does, including changing the registry while it is being traversed, is not modelled.
- GameConfiguration.GameConfig.DispatchEvent: as for `Emit`, callbacks are returned as calls, not made.
- The dat.gui wiring, `getDatGui` and `updateGui`, is left out; it is GUI library code. `resetAll` differs from `initAll` only by calling `updateGui`.
- GameConfiguration.GameConfig.SetProperty: the nineteen accessor pairs are modelled by one setter and one getter over property names. A value is either a number or a flag.
- The `cameraFollowOffset` getter returns a `THREE.Vector3`; it is not modelled. The setter is `SetCameraFollowOffset`.
- The `GameConfig.instance` singleton is not modelled. A model program would hold one `GameConfig`.
- Constructor defaults are stated in doc comments and as constants rather than as optional arguments:
  - the inventory capacity 1000 (`Inventory.DefaultCapacity`);
  - the fuel defaults 1000, 1000 and 0.001.
- Default arguments of the geometry and noise entry points are not modelled; every argument is passed explicitly:
  - `createGoldbergPolyhedron(radius = 1, detail = 1, roughness = 0.1)`;
  - `noise(x, y = 0, z = 0)`.
- Goldberg.CreateGoldbergPolyhedron: `detail` is an integer. In the source a fractional `detail` also works: the `depth <= 0` test stops after ceil(detail) levels, so 1.5 subdivides twice. The model does not take fractional depths.
- Noise.Perlin.Noise: the proved range is [-36, 36]. Simplex noise with the factor 72 is meant to stay near [-1, 1]; that tighter bound is not proved.
- Inventory: resource types that look like array indices (such as "7") are enumerated first by a JavaScript object, in numeric order. The model keeps every type in first-stored order; the total does not depend on the order.
- SpacecraftFuel.FuelManager.Refuel: the method's own comment says refuelling stops at 1000, but the code stops at the `capacity` field. The model follows the code.
