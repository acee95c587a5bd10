/**
 * The values of a Beat Saber `Info.dat` document as the map creator builds them:
 * the difficulty rank table, the root record built by `createInfoDict`, and the
 * difficulty entry (with its derived `_beatmapFilename`) built by `updateDifficulty`.
 * Numeric fields (bpm, note jump speed, offsets, preview window) are copied and never
 * computed on, so they are carried as `real` payloads.
 */
module InfoDict {
  import opened Wrappers

  /** An opaque JSON value: the `_customData` payloads, copied but never inspected. */
  datatype Json =
    | JNull
    | JBool(b: bool)
    | JNumber(n: real)
    | JString(s: string)
    | JArray(items: seq<Json>)
    | JObject(members: seq<(string, Json)>)

  /** The `songInfo` dictionary passed to `createInfoDict`. */
  datatype SongInfo = SongInfo(name: string, subName: string, artist: string, bpm: real, audio: string, cover: string)

  /** The `mapInfo` dictionary passed to `createInfoDict`: preview window and environment. */
  datatype MapInfo = MapInfo(pStart: real, pDur: real, env: string)

  /** The `diffInfo` dictionary passed to `updateDifficulty`; `style` is its `'type'` key. */
  datatype DiffInfo = DiffInfo(style: string, diff: string, njs: real, offset: real)

  /** One element of `_difficultyBeatmaps`. */
  datatype DifficultyEntry = DifficultyEntry(
    difficulty: string,
    difficultyRank: int,
    beatmapFilename: string,
    noteJumpMovementSpeed: real,
    noteJumpStartBeatOffset: real,
    customData: Option<Json>)

  /** One element of `_difficultyBeatmapSets`. */
  datatype CharacteristicSet = CharacteristicSet(beatmapCharacteristicName: string, difficultyBeatmaps: seq<DifficultyEntry>)

  /** The root `Info.dat` dictionary. */
  datatype Info = Info(
    version: string,
    songName: string,
    songSubName: string,
    songAuthorName: string,
    levelAuthorName: string,
    beatsPerMinute: real,
    shuffle: int,
    shufflePeriod: real,
    previewStartTime: real,
    previewDuration: real,
    songFilename: string,
    coverImageFilename: string,
    environmentName: string,
    allDirectionsEnvironmentName: string,
    songTimeOffset: int,
    customData: Option<Json>,
    difficultyBeatmapSets: seq<CharacteristicSet>)

  /** The `KeyError` raised when a difficulty name is missing from the rank table. */
  datatype Error = UnknownDifficulty(name: string)

  /** `DIFFICULTY_RANKS`: the difficulty names Beat Saber recognises and their ranks. */
  const DifficultyRanks: map<string, int> :=
    map["Easy" := 1, "Normal" := 3, "Hard" := 5, "Expert" := 7, "ExpertPlus" := 9]

  /** The characteristic name every newly created set receives. */
  const NewSetCharacteristic: string := "Standard"

  /** The table is defined for exactly the five names, and gives them distinct odd ranks from 1 to 9. */
  lemma RankTable()
    ensures DifficultyRanks.Keys == {"Easy", "Normal", "Hard", "Expert", "ExpertPlus"}
    ensures DifficultyRanks.Values == {1, 3, 5, 7, 9}
    ensures forall a, b :: a in DifficultyRanks && b in DifficultyRanks && a != b ==>
              DifficultyRanks[a] != DifficultyRanks[b]
  {
  }

  /** The lookup `DIFFICULTY_RANKS[name]`, which raises for a name outside the table. */
  function LookupRank(name: string): (r: Result<int, Error>)
    ensures r.Success? <==> name == "Easy" || name == "Normal" || name == "Hard" || name == "Expert" || name == "ExpertPlus"
    ensures r.Failure? ==> r.error == UnknownDifficulty(name)
    ensures r.Success? ==> 1 <= r.value <= 9 && r.value % 2 == 1
    ensures name == "Easy" ==> r == Success(1)
    ensures name == "Normal" ==> r == Success(3)
    ensures name == "Hard" ==> r == Success(5)
    ensures name == "Expert" ==> r == Success(7)
    ensures name == "ExpertPlus" ==> r == Success(9)
  {
    if name in DifficultyRanks then Success(DifficultyRanks[name]) else Failure(UnknownDifficulty(name))
  }

  /** The file name of a difficulty's beatmap: `diff + type + '.dat'` (also the stub `createDifficulty` writes). */
  function BeatmapFilename(diff: string, style: string): (r: string)
    ensures |r| == |diff| + |style| + 4
    ensures r[..|diff|] == diff && r[|diff|..|diff| + |style|] == style
    ensures r[|diff| + |style|..] == ".dat"
  {
    diff + style + ".dat"
  }

  /** Within one characteristic, the beatmap file name identifies the difficulty it was built from. */
  lemma BeatmapFilenameDeterminesDifficulty(diff1: string, diff2: string, style: string)
    requires BeatmapFilename(diff1, style) == BeatmapFilename(diff2, style)
    ensures diff1 == diff2
  {
  }

  /** An entry whose rank is the one the table gives its difficulty name. */
  predicate EntryWellFormed(e: DifficultyEntry) {
    e.difficulty in DifficultyRanks && e.difficultyRank == DifficultyRanks[e.difficulty]
  }

  /**
   * The `difficultyJSON` dictionary of `updateDifficulty`: it fails exactly when the
   * difficulty name is not in the rank table, before anything else happens.
   */
  function BuildEntry(diffInfo: DiffInfo, customData: Option<Json>): (r: Result<DifficultyEntry, Error>)
    ensures r.Failure? <==> diffInfo.diff !in DifficultyRanks
    ensures r.Failure? ==> r.error == UnknownDifficulty(diffInfo.diff)
    ensures r.Success? ==> EntryWellFormed(r.value) && r.value.difficulty == diffInfo.diff
    ensures r.Success? ==> r.value.beatmapFilename == BeatmapFilename(diffInfo.diff, diffInfo.style)
    ensures r.Success? ==> r.value.noteJumpMovementSpeed == diffInfo.njs && r.value.noteJumpStartBeatOffset == diffInfo.offset
    ensures r.Success? ==> r.value.customData == customData
  {
    match LookupRank(diffInfo.diff)
    case Failure(err) => Failure(err)
    case Success(rank) =>
      Success(DifficultyEntry(diffInfo.diff, rank, BeatmapFilename(diffInfo.diff, diffInfo.style),
                              diffInfo.njs, diffInfo.offset, customData))
  }

  /**
   * `createInfoDict`: fixed defaults for the version, author label, shuffle settings,
   * time offset and 360-degree environment; everything else copied from the inputs;
   * no characteristic sets yet; `_customData` only when one is supplied.
   */
  function CreateInfoDict(songInfo: SongInfo, mapInfo: MapInfo, customSongData: Option<Json>): (info: Info)
    ensures info.difficultyBeatmapSets == []
    ensures info.version == "2.0.0" && info.levelAuthorName == "AutoBeat"
    ensures info.shuffle == 0 && info.shufflePeriod == 0.5 && info.songTimeOffset == 0
    ensures info.allDirectionsEnvironmentName == "GlassDesertEnvironment"
    ensures info.songName == songInfo.name && info.songSubName == songInfo.subName
    ensures info.songAuthorName == songInfo.artist && info.beatsPerMinute == songInfo.bpm
    ensures info.songFilename == songInfo.audio && info.coverImageFilename == songInfo.cover
    ensures info.previewStartTime == mapInfo.pStart && info.previewDuration == mapInfo.pDur
    ensures info.environmentName == mapInfo.env
    ensures info.customData == customSongData
  {
    Info(
      version := "2.0.0",
      songName := songInfo.name,
      songSubName := songInfo.subName,
      songAuthorName := songInfo.artist,
      levelAuthorName := "AutoBeat",
      beatsPerMinute := songInfo.bpm,
      shuffle := 0,
      shufflePeriod := 0.5,
      previewStartTime := mapInfo.pStart,
      previewDuration := mapInfo.pDur,
      songFilename := songInfo.audio,
      coverImageFilename := songInfo.cover,
      environmentName := mapInfo.env,
      allDirectionsEnvironmentName := "GlassDesertEnvironment",
      songTimeOffset := 0,
      customData := customSongData,
      difficultyBeatmapSets := [])
  }
}
