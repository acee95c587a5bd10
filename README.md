# AutoBeat `Info.dat` builder, modelled in Dafny

This project models the info-document builder of AutoBeat's map creator
(`V1/MapCreatorV1.py`). The builder assembles the Beat Saber `Info.dat` dictionary
in memory and then adds difficulties to it one call at a time:

- `DIFFICULTY_RANKS` is the fixed rank table: Easy 1, Normal 3, Hard 5, Expert 7, ExpertPlus 9.
- `createInfoDict` builds the root record. It holds fixed defaults, the song and map
  fields copied from its inputs, and an empty list of characteristic sets.
- `updateDifficulty` builds a difficulty entry. The entry's rank comes from the table and
  its `_beatmapFilename` is `diff + type + '.dat'`. The call then picks the first set whose
  characteristic name is `type`, or appends a new set. Inside that set it inserts the entry
  before the first entry of greater rank, replaces an entry of equal rank in place, or
  appends it.

Files:

- `wrappers.dfy`: `Option`, `Result` and `Outcome`.
- `info_dict.dfy` (module `InfoDict`): the document's values, the rank table,
  `CreateInfoDict`, the file-name derivation and the entry construction `BuildEntry`.
- `upsert.dfy` (module `DifficultyUpsert`): the target-set search `FirstMatch`, the sorted
  insert-or-update `Upsert`, the whole change to the set list `UpdateSets`, and their
  properties: ordering, one entry per rank, the three cases, last call wins, commutation.
- `info_document.dfy` (module `InfoDocument`): the mutable document as class `Document`.
  Its method `UpdateDifficulty` runs the two scans of the source as `while` loops and is
  proved against `UpdateSets`. The same module holds `UpdateInfo` and `ApplyUpdates` for
  sequences of calls, with lemmas about them and two concrete scenarios.

A `KeyError` from the rank lookup is modelled as `Failure(UnknownDifficulty(name))` /
`Fail(...)`. It happens before anything is changed, so the document stays as it was.
Numeric fields (bpm, note jump speed and offset, preview window, shuffle period) are copied
from the inputs or set to a constant, never computed on, so they are carried as `real` values. `_customData` payloads are an opaque
`Json` value wrapped in `Option`.

One behaviour of the code deserves attention. A newly created set is always named
`'Standard'`, because line 66 hard-codes that name rather than using `type`. So in a document
built by `createInfoDict` and `updateDifficulty`, every set is named `'Standard'`
(`ApplyUpdatesKeepsAllStandard`, `BuiltDocumentIsWellFormed`), and the search at line 75 never
finds a set named after any other `type`. Each call with such a `type` appends another
`'Standard'` set holding only the new entry (`UnmatchedStyleAppendsStandardSet`,
`UnmatchedStyleGrowsEveryCall`, `LightshowScenario`). A dictionary the caller supplies with a
set of another name, such as "Lightshow", is found by that search like any other. Set reuse, last-call-wins and
order-independence therefore hold for `'Standard'` calls (`StandardSetIsReused`,
`StandardUpdatesLastWins`, `StandardUpdatesCommute`, `ApplyUpdatesSwapStandardCalls`). They
fail once another characteristic is involved:
- A "Lightshow" call followed by a "Standard" call for the same difficulty leaves one set.
  The reverse order leaves two (`OtherCharacteristicMakesOrderMatter`).
- The calls ("Lightshow", Easy), ("Standard", Hard), ("Standard", Easy) leave one
  "Standard" set [`EasyStandard.dat`, `HardStandard.dat`]. The Lightshow entry is
  overwritten (`LightshowThenStandardScenario`).

## Model

| member | source | states |
|---|---|---|
| `InfoDict.RankTable` | V1/MapCreatorV1.py:7-13 | the table is defined for exactly Easy, Normal, Hard, Expert and ExpertPlus; its ranks are {1,3,5,7,9}; distinct names have distinct ranks |
| `InfoDict.LookupRank` | V1/MapCreatorV1.py:59 | the lookup succeeds iff the name is one of the five, giving Easy 1, Normal 3, Hard 5, Expert 7, ExpertPlus 9; otherwise it fails with that name |
| `InfoDict.BeatmapFilename` | V1/MapCreatorV1.py:60 | the file name is the difficulty name, then the characteristic name, then `.dat` (the same name `createDifficulty` writes at line 50) |
| `InfoDict.BeatmapFilenameDeterminesDifficulty` | V1/MapCreatorV1.py:50 | for a fixed characteristic, two difficulties with the same beatmap file name are the same difficulty: the file name is injective in the difficulty name |
| `InfoDict.BuildEntry` | V1/MapCreatorV1.py:57-71 | the entry fails exactly for a name outside the table, with that name; otherwise its rank is the table's rank for its name, its file name is derived as above, njs and offset are copied, and `_customData` is present iff supplied |
| `InfoDict.CreateInfoDict` | V1/MapCreatorV1.py:16-37 | no characteristic sets; fixed defaults `2.0.0`, `AutoBeat`, shuffle 0, period 0.5, time offset 0, `GlassDesertEnvironment`; every other field copied from its input; `_customData` present iff supplied |
| `DifficultyUpsert.OneEntryPerDifficulty` | V1/MapCreatorV1.py:57-63 | in a set whose entries ascend by rank and carry their names' ranks, no two entries share a difficulty name |
| `DifficultyUpsert.FirstMatch` | V1/MapCreatorV1.py:73-77 | the index is the first set in list order named `type`, or the list length when no set has that name |
| `DifficultyUpsert.FirstMatchUnique` | V1/MapCreatorV1.py:73-77 | any index with the first-match property is the one the scan finds |
| `DifficultyUpsert.Upsert` | V1/MapCreatorV1.py:81-88 | the list keeps its length or grows by exactly one, and it contains the new entry |
| `DifficultyUpsert.UpsertElements` | V1/MapCreatorV1.py:81-88 | every element afterwards is the new entry or an old one, and every old entry of another rank is kept: no entry is removed except the one replaced |
| `DifficultyUpsert.UpsertReplacesEqualRank` | V1/MapCreatorV1.py:85-87 | when the first entry not below the new rank has an equal rank, that position is replaced and the length and every other position are unchanged |
| `DifficultyUpsert.UpsertInsertsBeforeGreater` | V1/MapCreatorV1.py:82-84 | when the first entry not below the new rank ranks higher, the new entry lands at its index and the old entries keep their order; the length grows by one |
| `DifficultyUpsert.UpsertAppendsAfterSmaller` | V1/MapCreatorV1.py:88 | when every entry ranks lower, the new entry is appended at the end |
| `DifficultyUpsert.UpsertKeepsAscending` | V1/MapCreatorV1.py:81-88 | entries strictly ascending by rank before the call are strictly ascending after it |
| `DifficultyUpsert.UpsertSingleEntryForRank` | V1/MapCreatorV1.py:81-88 | after upserting into an ascending list, the new entry is present and no other entry carries its rank |
| `DifficultyUpsert.UpsertSameRankLastWins` | V1/MapCreatorV1.py:85-87 | upserting two entries of the same rank leaves what upserting only the second would; re-upserting is idempotent |
| `DifficultyUpsert.UpsertCommutes` | V1/MapCreatorV1.py:81-88 | on any list, sorted or not, upserts of two different ranks give the same list in either order |
| `DifficultyUpsert.UpdateSets` | V1/MapCreatorV1.py:65-88 | the set list grows by one iff no set is named `type`, and then the new last set is named `Standard` and holds only the new entry; otherwise the first set named `type` gets the upsert; all other sets are unchanged |
| `DifficultyUpsert.UpdateSetsKeepsAllStandard` | V1/MapCreatorV1.py:65-79 | one call, for any characteristic, on sets all named `Standard` leaves every set named `Standard`: a created set always carries that name |
| `DifficultyUpsert.UpdateSetsKeepsWellFormed` | V1/MapCreatorV1.py:73-88 | a well-formed entry added to sets that are all ascending and rank-consistent keeps them so |
| `DifficultyUpsert.UnmatchedStyleAppendsStandardSet` | V1/MapCreatorV1.py:65-79 | when no set is named `type`, the result is the old sets plus a `Standard` set holding only the new entry; for a `type` other than `Standard` there is still no set of that name |
| `DifficultyUpsert.StandardSetIsReused` | V1/MapCreatorV1.py:73-79 | an update for `Standard` leaves the first `Standard` set where the scan found it, or where it was appended |
| `DifficultyUpsert.StandardUpdatesLastWins` | V1/MapCreatorV1.py:73-88 | two `Standard` updates of the same rank leave the sets the second alone would |
| `DifficultyUpsert.StandardUpdatesCommute` | V1/MapCreatorV1.py:73-88 | on any sets, two `Standard` updates of different ranks give the same sets in either order |
| `InfoDocument.UpdateInfo` | V1/MapCreatorV1.py:56-88 | a call fails iff the difficulty name is not in the table, with that name; a successful call replaces the set list by `UpdateSets` of the old list with the built entry, and changes no other top-level field |
| `InfoDocument.ApplyUpdatesKeepsWellFormed` | V1/MapCreatorV1.py:56-88 | after any sequence of successful calls, the sets are still ascending and rank-consistent, and no top-level field except the set list has changed |
| `InfoDocument.ApplyUpdatesKeepsAllStandard` | V1/MapCreatorV1.py:65-79 | starting from sets all named `Standard`, any sequence of successful calls, for any characteristics, leaves every set named `Standard` |
| `InfoDocument.BuiltDocumentIsWellFormed` | V1/MapCreatorV1.py:16-88 | a document made by `createInfoDict` and then any calls has well-formed sets, every one named `Standard`, and keeps its version, author and custom data |
| `InfoDocument.UnmatchedStyleGrowsEveryCall` | V1/MapCreatorV1.py:65-79 | n known-difficulty calls for a characteristic other than `Standard` that names no set all succeed and add n sets |
| `InfoDocument.DemoScenario` | V1/MapCreatorV1.py:106-130 | the demo's single ExpertPlus call gives one `Standard` set holding `ExpertPlusStandard.dat`; a Hard call, added here as a second step that the demo does not make, goes in front of it: [Hard (5), ExpertPlus (9)] |
| `InfoDocument.OtherCharacteristicMakesOrderMatter` | V1/MapCreatorV1.py:65-79 | (Lightshow, Easy) then (Standard, Easy) leaves one set; the reverse order leaves two `Standard` sets |
| `InfoDocument.LightshowThenStandardScenario` | V1/MapCreatorV1.py:65-88 | on an empty document, (Lightshow, Easy), (Standard, Hard), (Standard, Easy) leave one `Standard` set [`EasyStandard.dat`, `HardStandard.dat`] |
| `InfoDocument.LightshowScenario` | V1/MapCreatorV1.py:65-79 | two `Lightshow` Easy upserts give two sets, both named `Standard`, each holding one entry `EasyLightshow.dat` |
| `InfoDocument.ApplyUpdatesSucceedsIffKnown` | V1/MapCreatorV1.py:59 | a call sequence succeeds iff every call names a difficulty in the rank table |
| `InfoDocument.ApplyUpdatesStopsAtUnknown` | V1/MapCreatorV1.py:59 | a call sequence fails with the name of its first unknown difficulty, whatever follows it |
| `InfoDocument.ApplyUpdatesSwapStandardCalls` | V1/MapCreatorV1.py:73-88 | on any document, swapping two adjacent `Standard` calls for different known difficulties anywhere in a sequence does not change the result |
| `InfoDocument.Document.constructor` | V1/MapCreatorV1.py:16-37 | the new document holds exactly what `createInfoDict` builds |
| `InfoDocument.Document.UpdateDifficulty` | V1/MapCreatorV1.py:56-88 | fails iff the difficulty is unknown, with the document left unchanged; otherwise the document becomes its old value with the set list replaced by `UpdateSets` of the old list; ascending, rank-consistent sets stay so |
| `InfoDocument.Document.SetEntries` | V1/MapCreatorV1.py:83-88 | stores a new entry list for one set and changes nothing else |

## Left out

- File output: `createDifficulty`'s write of the empty stub (`_version`, `_notes`, `_events`), `createInfoDat`'s JSON dump with indentation, and the `songFolderName + '\\'` paths. These are I/O and library serialisation. Only the stub's file name is modelled.
- `createSongFolder`: a filesystem call.
- `createTestFolder` and the module-level driver: a demo script. Its single upsert appears only in the concrete lemma `DemoScenario`, which also adds a second call of its own.
- `MarkovMapperV1.mapDifficulty`: an external generator. MarkovMapperV1 is not part of this model.
- `POSSIBLE_DIFF_NAMES`: defined but never used by the code.
- Floating-point numbers: bpm, njs, offset, preview window and `_shufflePeriod` are carried as `real`. The code copies them from its inputs or sets them to a constant (`_shufflePeriod` is always 0.5) and never computes with them.
- Missing keys in `songInfo`, `mapInfo` or `diffInfo`, and in the caller's `info` (`_difficultyBeatmapSets` at lines 73-79, `_beatmapCharacteristicName` at line 75, `_difficultyBeatmaps` and `_difficultyRank` at lines 81-85): the model's records always have every field, so the `KeyError` those lookups could raise is not modelled. The rank lookup's `KeyError` is modelled.
- Dictionary key order: `_customData` is added after `_difficultyBeatmapSets`. This only affects serialisation.
- Aliasing: sets, entry lists and `_customData` payloads are values. The code mutates the nested Python lists in place, and the class instead replaces the document's value. The code also stores the caller's `customSongData` and `customData` dictionaries by reference (V1/MapCreatorV1.py:36, 71). So a caller that keeps a reference to an inner list or a custom-data dictionary, and later changes or reads it, would see it shared with the document. The model does not capture this sharing.
