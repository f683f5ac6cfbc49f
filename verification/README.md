# Secret exfil notes in caches — a Dafny model

The repository is one post-database-load hook for a game server. For every allow-listed map in the host's location table, it adds a map-specific "codeword" note to five kinds of loot container. The note's spawn weight is computed from the container's existing total weight and a configured percentage `chance`. This project models the hook as pure functions over immutable maps and sequences and proves what it does to the table.

Modules, in the order the hook uses them:

- `LootTables` (`loot_tables.dfy`): the slice of the host database the hook touches. It covers item entries `(tpl, relativeProbability)`, container records, and maps with a `baseId` and a `staticLoot` table.
- `Probability` (`probability.dfy`): the aggregator. `Sum` is a recursive reference definition. `GetItemDistributionProbability` is the source's accumulating loop, proved equal to `Sum`.
- `SpawnChance` (`spawn_chance.dfy`): the estimator `round(c/100 * (T + c/100 * T))`. It is computed in exact real arithmetic and proved equal to the integer `c*T*(100+c)/10000` rounded to the nearest integer, with halves rounded up.
- `ExfilNotes` (`exfil_notes.dfy`): the eight note template ids. It also holds the map → note table and the injector, whose body follows the source's `switch`.
- `PostDbLoad` (`post_db_load.dfy`): the orchestrator. It has a functional version over the whole table and a loop version that visits the keys in any order.

Three facts about the code shape the model:

- The injector's `switch` has ten case labels for eight notes. Both factory maps share one note, and so do both Ground Zero maps.
- The injector's no-note branch is reachable. The allow-list tests the table key (src/mod.ts:34), but the injector dispatches on `base.Id` (src/mod.ts:37). An allow-listed map whose `baseId` is unrecognised is left untouched. A map keyed `bigmap` with `baseId` `woods` gets the Woods note.
- Rounding is JavaScript `Math.round`: the nearest integer, with halves rounded towards positive infinity.

## Model

| member | source | states |
|---|---|---|
| Probability.Sum | src/mod.ts:86-95 | The total of a container's weights: 0 for an empty list, non-negative when every weight is |
| Probability.SumAppend | src/mod.ts:89-93 | Appending one entry raises the total by exactly that entry's weight |
| Probability.GetItemDistributionProbability | src/mod.ts:86-95 | The accumulating loop over a present container's list returns the sum of all its weights |
| SpawnChance.MathRound | src/mod.ts:103 | `Math.round` returns the integer within half of its argument, taking the upper one on a tie |
| SpawnChance.GetGuessChanceOfSpawn | src/mod.ts:97-106 | The two-step real computation equals c*T*(100+c)/10000 rounded to the nearest integer, halves up |
| SpawnChance.GuessChanceZero | src/mod.ts:102-103 | A percentage of 0 or a total of 0 gives weight 0 |
| SpawnChance.GuessChanceExample | src/mod.ts:102-103 | chance 10 and total 100 give weight 11 |
| SpawnChance.GuessChanceNonNegative | src/mod.ts:102-103 | A non-negative percentage and total give a non-negative weight |
| SpawnChance.GuessChanceMonotonic | src/mod.ts:102-103 | With a non-negative percentage, the weight never decreases as the total grows |
| ExfilNotes.TplInjective | src/mod.ts:163-173 | The eight note ids are pairwise distinct, and none is the placeholder id |
| ExfilNotes.AddCodeWordToCache | src/mod.ts:108-160 | A recognised map id appends exactly `(note of that map, chance)` to the list. Any other id leaves the container unchanged. Both factory ids share one note, and so do both sandbox ids |
| ExfilNotes.AddCodeWordAppendOnly | src/mod.ts:110-159 | Existing entries keep their positions. At most one entry is added, exactly when the id is recognised. It carries the given weight and never the placeholder id |
| PostDbLoad.AllowListMatchesNoteTable | src/mod.ts:11-22 | The ten allow-listed keys are exactly the ids the injector recognises |
| PostDbLoad.AdjustCache | src/mod.ts:39-46 | Handling one container type keeps the set of container types and every other container |
| PostDbLoad.AdjustCaches | src/mod.ts:39-82 | Handling the five types in turn creates and removes no container type and leaves untouched every type not handled |
| PostDbLoad.AdjustedCache | src/mod.ts:42-45 | Aggregate, estimate, inject: in a recognised map, a container becomes its old list plus one note weighted from the old total, and the new total is the old one plus that weight. In any other map the container is unchanged |
| PostDbLoad.AdjustLocation | src/mod.ts:36-82 | One allow-listed map, with the note chosen by its `baseId`. It keeps its `baseId` and its set of container types, and types other than the five are untouched. With distinct type ids, each present type of the five is adjusted once from its original contents. An unrecognised `baseId` leaves the map unchanged |
| PostDbLoad.AdjustCachesDistinct | src/mod.ts:39-82 | With distinct container types, each present type is adjusted exactly once, from its original contents |
| PostDbLoad.AdjustCachesUnrecognised | src/mod.ts:36-82 | An unrecognised `baseId` leaves every container of the map as it was |
| PostDbLoad.PostDBLoad | src/mod.ts:26-84 | The table keeps its keys. Maps keyed outside the allow-list are unchanged. Every map keeps its `baseId` and its set of container types. Container types other than the five are unchanged |
| PostDbLoad.PostDBLoadByKeys | src/mod.ts:31-37 | Visiting the table's keys in any order gives the same table as the functional hook |
| PostDbLoad.PostDBLoadAppendsNote | src/mod.ts:36-82 | For an allow-listed map with a recognised `baseId`, each of the five present container types ends with exactly one new entry. That entry is the map's note, weighted from the container's total before the append |
| PostDbLoad.PostDBLoadUnrecognisedBaseId | src/mod.ts:34-37 | A map whose `baseId` is unrecognised is unchanged, even when its key is allow-listed |
| PostDbLoad.KeyAndBaseIdExample | src/mod.ts:34-37 | A map keyed `bigmap` with `baseId` `woods` is edited and receives the Woods note with weight 0 |
| PostDbLoad.PostDBLoadTwice | src/mod.ts:39-82 | Running the hook twice leaves two notes at the end of a touched container. The second is weighted from the total after the first append, which is the old total plus the first weight. The two results differ, so the hook is not idempotent |
| PostDbLoad.PostDBLoadKeepsNonNegativeWeights | src/mod.ts:39-82 | With a non-negative percentage, all weights stay non-negative if they were before |
| PostDbLoad.AdjustCachesKeepNonNegative | src/mod.ts:39-82 | Handling any sequence of container types keeps every container's weights non-negative |

## Left out

- Dependency-injection resolution of the database service and `getTables()` (src/mod.ts:28-29): host plumbing. The location table is an explicit parameter.
- Loading `config.json` (src/mod.ts:24): file I/O. The percentage `chance` is an integer parameter.
- IEEE-754 behaviour of the division and multiplication (src/mod.ts:102-103): the model uses exact arithmetic, so it ignores float rounding error and `-0`.
- Fractional weights: `relativeProbability` and `chance` are integers. The host's weights are whole numbers, and the injected weight is always a rounded integer.
- Concrete values of the host's five container-type ids (src/mod.ts:7): they come from a host enum. They are opaque strings, and the "exactly one entry" lemmas require them to be pairwise distinct. The operation itself does not need that: the fold handles the five types in source order, so a repeated id would be adjusted twice, as the source would.
- All other fields of the host's location and loot records: the hook neither reads nor writes them.
- The module-level `mod` instance (src/mod.ts:175): it only constructs the hook.
- Object identity: two map entries sharing one loot record would both see its appends in the source. The model has value semantics.
- Sparse arrays: holes in an item list, which `for...in` skips, are not modelled. Item lists are sequences.
