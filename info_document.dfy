/**
 * The `Info.dat` dictionary as a mutable object: built by `createInfoDict` and changed in
 * place by repeated `updateDifficulty` calls.
 */
module InfoDocument {
  import opened Wrappers
  import opened InfoDict
  import opened DifficultyUpsert

  /**
   * One `updateDifficulty` call on a document value: the entry is built first (an unknown
   * difficulty fails before anything changes), then upserted into the target set.
   */
  function UpdateInfo(info: Info, diffInfo: DiffInfo, customData: Option<Json>): (r: Result<Info, Error>)
    ensures r.Failure? <==> diffInfo.diff !in DifficultyRanks
    ensures r.Failure? ==> r.error == UnknownDifficulty(diffInfo.diff)
    ensures r.Success? ==> r.value == info.(difficultyBeatmapSets := r.value.difficultyBeatmapSets)
    ensures r.Success? ==>
              r.value.difficultyBeatmapSets == UpdateSets(info.difficultyBeatmapSets, diffInfo.style, BuildEntry(diffInfo, customData).value)
  {
    match BuildEntry(diffInfo, customData)
    case Failure(err) => Failure(err)
    case Success(entry) =>
      Success(info.(difficultyBeatmapSets := UpdateSets(info.difficultyBeatmapSets, diffInfo.style, entry)))
  }

  /** The arguments of one `updateDifficulty` call. */
  datatype Call = Call(diffInfo: DiffInfo, customData: Option<Json>)

  /**
   * A sequence of `updateDifficulty` calls; the first one that raises stops the sequence.
   * On failure only the error is returned, not the state the earlier calls left behind
   * (`Document.UpdateDifficulty` keeps that state call by call).
   */
  function ApplyUpdates(info: Info, calls: seq<Call>): (r: Result<Info, Error>)
    decreases |calls|
  {
    if calls == [] then Success(info)
    else
      match UpdateInfo(info, calls[0].diffInfo, calls[0].customData)
      case Failure(err) => Failure(err)
      case Success(next) => ApplyUpdates(next, calls[1..])
  }

  /**
   * However many calls are made, every set stays strictly ascending by rank with ranks
   * matching names, and no top-level field other than the set list changes.
   */
  lemma {:induction false} ApplyUpdatesKeepsWellFormed(info: Info, calls: seq<Call>)
    requires SetsWellFormed(info.difficultyBeatmapSets)
    ensures ApplyUpdates(info, calls).Success? ==>
              && SetsWellFormed(ApplyUpdates(info, calls).value.difficultyBeatmapSets)
              && ApplyUpdates(info, calls).value == info.(difficultyBeatmapSets := ApplyUpdates(info, calls).value.difficultyBeatmapSets)
    decreases |calls|
  {
    if calls != [] {
      var c := calls[0];
      match BuildEntry(c.diffInfo, c.customData)
      case Failure(_) =>
      case Success(entry) =>
        UpdateSetsKeepsWellFormed(info.difficultyBeatmapSets, c.diffInfo.style, entry);
        var next := UpdateInfo(info, c.diffInfo, c.customData).value;
        ApplyUpdatesKeepsWellFormed(next, calls[1..]);
    }
  }

  /** A call sequence fails exactly when one of its calls names a difficulty outside the rank table. */
  lemma {:induction false} ApplyUpdatesSucceedsIffKnown(info: Info, calls: seq<Call>)
    ensures ApplyUpdates(info, calls).Success? <==>
              forall j :: 0 <= j < |calls| ==> calls[j].diffInfo.diff in DifficultyRanks
    decreases |calls|
  {
    if calls != [] && calls[0].diffInfo.diff in DifficultyRanks {
      var next := UpdateInfo(info, calls[0].diffInfo, calls[0].customData).value;
      ApplyUpdatesSucceedsIffKnown(next, calls[1..]);
      assert forall j :: 0 <= j < |calls[1..]| ==> calls[1..][j] == calls[j + 1];
    }
  }

  /**
   * The calls before the first unknown difficulty name run; that call raises with its name,
   * and the calls after it never run.
   */
  lemma {:induction false} ApplyUpdatesStopsAtUnknown(info: Info, calls: seq<Call>, i: nat)
    requires i < |calls| && calls[i].diffInfo.diff !in DifficultyRanks
    requires forall j :: 0 <= j < i ==> calls[j].diffInfo.diff in DifficultyRanks
    ensures ApplyUpdates(info, calls) == Failure(UnknownDifficulty(calls[i].diffInfo.diff))
    decreases i
  {
    if i > 0 {
      var next := UpdateInfo(info, calls[0].diffInfo, calls[0].customData).value;
      assert forall j :: 0 <= j < |calls[1..]| ==> calls[1..][j] == calls[j + 1];
      ApplyUpdatesStopsAtUnknown(next, calls[1..], i - 1);
    }
  }

  /** A call for "Standard" with a difficulty name from the rank table. */
  predicate KnownStandardCall(c: Call) {
    c.diffInfo.style == NewSetCharacteristic && c.diffInfo.diff in DifficultyRanks
  }

  /**
   * Swapping two adjacent "Standard" calls for different difficulties, anywhere in a call
   * sequence on any document, does not change the result.
   */
  lemma {:induction false} ApplyUpdatesSwapStandardCalls(info: Info, prefix: seq<Call>, c1: Call, c2: Call, suffix: seq<Call>)
    requires KnownStandardCall(c1) && KnownStandardCall(c2)
    requires c1.diffInfo.diff != c2.diffInfo.diff
    ensures ApplyUpdates(info, prefix + [c1, c2] + suffix) == ApplyUpdates(info, prefix + [c2, c1] + suffix)
    decreases |prefix|
  {
    if prefix == [] {
      assert prefix + [c1, c2] + suffix == [c1] + ([c2] + suffix);
      assert prefix + [c2, c1] + suffix == [c2] + ([c1] + suffix);
      var e1 := BuildEntry(c1.diffInfo, c1.customData).value;
      var e2 := BuildEntry(c2.diffInfo, c2.customData).value;
      RankTable();
      StandardUpdatesCommute(info.difficultyBeatmapSets, e1, e2);
      var i1 := UpdateInfo(info, c1.diffInfo, c1.customData).value;
      var i2 := UpdateInfo(info, c2.diffInfo, c2.customData).value;
      var i12 := UpdateInfo(i1, c2.diffInfo, c2.customData).value;
      var i21 := UpdateInfo(i2, c1.diffInfo, c1.customData).value;
      assert i12 == i21;
      assert ([c1] + ([c2] + suffix))[1..] == [c2] + suffix;
      assert ([c2] + ([c1] + suffix))[1..] == [c1] + suffix;
      assert ([c2] + suffix)[1..] == suffix && ([c1] + suffix)[1..] == suffix;
      assert ApplyUpdates(info, [c1] + ([c2] + suffix)) == ApplyUpdates(i12, suffix);
      assert ApplyUpdates(info, [c2] + ([c1] + suffix)) == ApplyUpdates(i21, suffix);
    } else {
      var c := prefix[0];
      assert (prefix + [c1, c2] + suffix)[0] == c && (prefix + [c2, c1] + suffix)[0] == c;
      assert (prefix + [c1, c2] + suffix)[1..] == prefix[1..] + [c1, c2] + suffix;
      assert (prefix + [c2, c1] + suffix)[1..] == prefix[1..] + [c2, c1] + suffix;
      match BuildEntry(c.diffInfo, c.customData)
      case Failure(_) =>
      case Success(entry) =>
        var next := UpdateInfo(info, c.diffInfo, c.customData).value;
        ApplyUpdatesSwapStandardCalls(next, prefix[1..], c1, c2, suffix);
    }
  }

  /** Starting from sets all named "Standard", no sequence of calls creates a set of any other name. */
  lemma {:induction false} ApplyUpdatesKeepsAllStandard(info: Info, calls: seq<Call>)
    requires AllNamedStandard(info.difficultyBeatmapSets)
    ensures ApplyUpdates(info, calls).Success? ==> AllNamedStandard(ApplyUpdates(info, calls).value.difficultyBeatmapSets)
    decreases |calls|
  {
    if calls != [] {
      var c := calls[0];
      match BuildEntry(c.diffInfo, c.customData)
      case Failure(_) =>
      case Success(entry) =>
        UpdateSetsKeepsAllStandard(info.difficultyBeatmapSets, c.diffInfo.style, entry);
        var next := UpdateInfo(info, c.diffInfo, c.customData).value;
        ApplyUpdatesKeepsAllStandard(next, calls[1..]);
    }
  }

  /**
   * A document built by `createInfoDict` and any number of updates keeps every set sorted and
   * its defaults, and every one of its sets is named "Standard": a call for another
   * characteristic never finds a set of its own.
   */
  lemma BuiltDocumentIsWellFormed(songInfo: SongInfo, mapInfo: MapInfo, customSongData: Option<Json>, calls: seq<Call>)
    ensures var r := ApplyUpdates(CreateInfoDict(songInfo, mapInfo, customSongData), calls);
      r.Success? ==>
        && SetsWellFormed(r.value.difficultyBeatmapSets)
        && AllNamedStandard(r.value.difficultyBeatmapSets)
        && r.value.version == "2.0.0" && r.value.levelAuthorName == "AutoBeat"
        && r.value.customData == customSongData
  {
    ApplyUpdatesKeepsWellFormed(CreateInfoDict(songInfo, mapInfo, customSongData), calls);
    ApplyUpdatesKeepsAllStandard(CreateInfoDict(songInfo, mapInfo, customSongData), calls);
  }

  /** Calls whose characteristic is `style` and whose difficulty names are all in the rank table. */
  predicate KnownCallsFor(calls: seq<Call>, style: string) {
    forall i :: 0 <= i < |calls| ==> calls[i].diffInfo.style == style && calls[i].diffInfo.diff in DifficultyRanks
  }

  /**
   * A characteristic other than "Standard" that names no set is never found again: each of
   * `n` calls for it appends one more set named "Standard".
   */
  lemma {:induction false} UnmatchedStyleGrowsEveryCall(info: Info, style: string, calls: seq<Call>)
    requires style != NewSetCharacteristic
    requires forall j :: 0 <= j < |info.difficultyBeatmapSets| ==> info.difficultyBeatmapSets[j].beatmapCharacteristicName != style
    requires KnownCallsFor(calls, style)
    ensures ApplyUpdates(info, calls).Success?
    ensures |ApplyUpdates(info, calls).value.difficultyBeatmapSets| == |info.difficultyBeatmapSets| + |calls|
    decreases |calls|
  {
    if calls != [] {
      var c := calls[0];
      var entry := BuildEntry(c.diffInfo, c.customData).value;
      UnmatchedStyleAppendsStandardSet(info.difficultyBeatmapSets, style, entry);
      var next := UpdateInfo(info, c.diffInfo, c.customData).value;
      assert KnownCallsFor(calls[1..], style) by {
        forall i | 0 <= i < |calls[1..]| ensures calls[1..][i] == calls[i + 1] { }
      }
      UnmatchedStyleGrowsEveryCall(next, style, calls[1..]);
    }
  }

  /** A sequence whose first call succeeds continues from that call's result. */
  lemma ApplyUpdatesStep(info: Info, c: Call, rest: seq<Call>, next: Info)
    requires UpdateInfo(info, c.diffInfo, c.customData) == Success(next)
    ensures ApplyUpdates(info, [c] + rest) == ApplyUpdates(next, rest)
  {
    assert ([c] + rest)[0] == c && ([c] + rest)[1..] == rest;
  }

  /** The beatmap file names the scenarios below produce. */
  lemma ScenarioFilenames()
    ensures BeatmapFilename("Easy", "Lightshow") == "EasyLightshow.dat"
    ensures BeatmapFilename("Easy", "Standard") == "EasyStandard.dat"
    ensures BeatmapFilename("Hard", "Standard") == "HardStandard.dat"
    ensures BeatmapFilename("ExpertPlus", "Standard") == "ExpertPlusStandard.dat"
  {
    assert "Easy" + "Lightshow" + ".dat" == "EasyLightshow.dat";
    assert "Easy" + "Standard" + ".dat" == "EasyStandard.dat";
    assert "Hard" + "Standard" + ".dat" == "HardStandard.dat";
    assert "ExpertPlus" + "Standard" + ".dat" == "ExpertPlusStandard.dat";
  }

  /** The `songInfo` of the demo map. */
  const DemoSong: SongInfo := SongInfo("Markov", "", "w/e", 128.0, "song.ogg", "")

  /** The `mapInfo` of the demo map. */
  const DemoMap: MapInfo := MapInfo(1.0, 10.0, "DefaultEnvironment")

  /**
   * The demo map: its single ExpertPlus upsert into "Standard" gives one set holding that
   * entry; a Hard upsert added as a second step goes in front of it, in rank order.
   */
  lemma DemoScenario()
    ensures ApplyUpdates(CreateInfoDict(DemoSong, DemoMap, None),
                         [Call(DiffInfo("Standard", "ExpertPlus", 20.0, 0.067), None)])
         == Success(CreateInfoDict(DemoSong, DemoMap, None).(difficultyBeatmapSets :=
              [CharacteristicSet("Standard", [DifficultyEntry("ExpertPlus", 9, "ExpertPlusStandard.dat", 20.0, 0.067, None)])]))
    ensures ApplyUpdates(CreateInfoDict(DemoSong, DemoMap, None),
                         [Call(DiffInfo("Standard", "ExpertPlus", 20.0, 0.067), None),
                          Call(DiffInfo("Standard", "Hard", 12.0, 0.0), None)])
         == Success(CreateInfoDict(DemoSong, DemoMap, None).(difficultyBeatmapSets :=
              [CharacteristicSet("Standard", [DifficultyEntry("Hard", 5, "HardStandard.dat", 12.0, 0.0, None),
                                              DifficultyEntry("ExpertPlus", 9, "ExpertPlusStandard.dat", 20.0, 0.067, None)])]))
  {
    var info0 := CreateInfoDict(DemoSong, DemoMap, None);
    var eplus := DifficultyEntry("ExpertPlus", 9, "ExpertPlusStandard.dat", 20.0, 0.067, None);
    var hard := DifficultyEntry("Hard", 5, "HardStandard.dat", 12.0, 0.0, None);
    var c1 := Call(DiffInfo("Standard", "ExpertPlus", 20.0, 0.067), None);
    var c2 := Call(DiffInfo("Standard", "Hard", 12.0, 0.0), None);
    ScenarioFilenames();
    assert BuildEntry(c1.diffInfo, None) == Success(eplus);
    assert BuildEntry(c2.diffInfo, None) == Success(hard);
    DemoSets(eplus, hard);
    var info1 := info0.(difficultyBeatmapSets := [CharacteristicSet("Standard", [eplus])]);
    var info2 := info0.(difficultyBeatmapSets := [CharacteristicSet("Standard", [hard, eplus])]);
    assert UpdateInfo(info0, c1.diffInfo, None) == Success(info1);
    assert UpdateInfo(info1, c2.diffInfo, None) == Success(info2);
    ApplyUpdatesStep(info0, c1, [], info1);
    ApplyUpdatesStep(info0, c1, [c2], info1);
    ApplyUpdatesStep(info1, c2, [], info2);
    assert [c1] + [] == [c1] && [c2] + [] == [c2] && [c1] + [c2] == [c1, c2];
  }

  /** The set-list steps of `DemoScenario`. */
  lemma DemoSets(eplus: DifficultyEntry, hard: DifficultyEntry)
    requires eplus.difficultyRank == 9 && hard.difficultyRank == 5
    ensures UpdateSets([], "Standard", eplus) == [CharacteristicSet("Standard", [eplus])]
    ensures UpdateSets([CharacteristicSet("Standard", [eplus])], "Standard", hard)
         == [CharacteristicSet("Standard", [hard, eplus])]
  {
    var sets1 := [CharacteristicSet("Standard", [eplus])];
    assert UpdateSets([], "Standard", eplus) == sets1;
    assert FirstMatch(sets1, "Standard") == 0;
    UpsertInsertsBeforeGreater([eplus], hard, 0);
    assert Upsert([eplus], hard) == [hard, eplus];
  }

  /**
   * Order matters once a characteristic other than "Standard" is involved: a "Lightshow"
   * Easy call followed by a "Standard" Easy call leaves one set, because the second call
   * finds the "Standard" set the first one created and replaces its Easy entry; the
   * reverse order leaves two "Standard" sets.
   */
  lemma OtherCharacteristicMakesOrderMatter()
    ensures var info0 := CreateInfoDict(DemoSong, DemoMap, None);
      var light := Call(DiffInfo("Lightshow", "Easy", 10.0, 0.0), None);
      var std := Call(DiffInfo("Standard", "Easy", 10.0, 0.0), None);
      var easyLight := DifficultyEntry("Easy", 1, "EasyLightshow.dat", 10.0, 0.0, None);
      var easyStd := DifficultyEntry("Easy", 1, "EasyStandard.dat", 10.0, 0.0, None);
      && ApplyUpdates(info0, [light, std]) == Success(info0.(difficultyBeatmapSets := [CharacteristicSet("Standard", [easyStd])]))
      && ApplyUpdates(info0, [std, light]) == Success(info0.(difficultyBeatmapSets :=
           [CharacteristicSet("Standard", [easyStd]), CharacteristicSet("Standard", [easyLight])]))
  {
    var info0 := CreateInfoDict(DemoSong, DemoMap, None);
    var lightInfo := DiffInfo("Lightshow", "Easy", 10.0, 0.0);
    var stdInfo := DiffInfo("Standard", "Easy", 10.0, 0.0);
    var easyLight := DifficultyEntry("Easy", 1, "EasyLightshow.dat", 10.0, 0.0, None);
    var easyStd := DifficultyEntry("Easy", 1, "EasyStandard.dat", 10.0, 0.0, None);
    ScenarioFilenames();
    assert BuildEntry(lightInfo, None) == Success(easyLight);
    assert BuildEntry(stdInfo, None) == Success(easyStd);
    var setLight := CharacteristicSet("Standard", [easyLight]);
    var setStd := CharacteristicSet("Standard", [easyStd]);
    // Lightshow first, then Standard.
    UnmatchedStyleAppendsStandardSet([], "Lightshow", easyLight);
    assert UpdateSets([], "Lightshow", easyLight) == [setLight];
    assert FirstMatch([setLight], "Standard") == 0;
    UpsertReplacesEqualRank([easyLight], easyStd, 0);
    assert Upsert([easyLight], easyStd) == [easyStd];
    assert UpdateSets([setLight], "Standard", easyStd) == [setStd];
    var infoL := info0.(difficultyBeatmapSets := [setLight]);
    var infoLS := info0.(difficultyBeatmapSets := [setStd]);
    assert UpdateInfo(info0, lightInfo, None) == Success(infoL);
    assert UpdateInfo(infoL, stdInfo, None) == Success(infoLS);
    ApplyUpdatesStep(info0, Call(lightInfo, None), [Call(stdInfo, None)], infoL);
    ApplyUpdatesStep(infoL, Call(stdInfo, None), [], infoLS);
    assert [Call(stdInfo, None)] + [] == [Call(stdInfo, None)];
    assert [Call(lightInfo, None)] + [Call(stdInfo, None)] == [Call(lightInfo, None), Call(stdInfo, None)];
    // Standard first, then Lightshow.
    UnmatchedStyleAppendsStandardSet([], "Standard", easyStd);
    assert UpdateSets([], "Standard", easyStd) == [setStd];
    UnmatchedStyleAppendsStandardSet([setStd], "Lightshow", easyLight);
    assert UpdateSets([setStd], "Lightshow", easyLight) == [setStd, setLight];
    var infoS := info0.(difficultyBeatmapSets := [setStd]);
    var infoSL := info0.(difficultyBeatmapSets := [setStd, setLight]);
    assert UpdateInfo(info0, stdInfo, None) == Success(infoS);
    assert UpdateInfo(infoS, lightInfo, None) == Success(infoSL);
    ApplyUpdatesStep(info0, Call(stdInfo, None), [Call(lightInfo, None)], infoS);
    ApplyUpdatesStep(infoS, Call(lightInfo, None), [], infoSL);
    assert [Call(lightInfo, None)] + [] == [Call(lightInfo, None)];
    assert [Call(stdInfo, None)] + [Call(lightInfo, None)] == [Call(stdInfo, None), Call(lightInfo, None)];
  }

  /** The set-list steps of `LightshowThenStandardScenario`. */
  lemma LightshowThenStandardSets(easyLight: DifficultyEntry, hardStd: DifficultyEntry, easyStd: DifficultyEntry)
    requires easyLight.difficultyRank == easyStd.difficultyRank == 1 && hardStd.difficultyRank == 5
    ensures UpdateSets([], "Lightshow", easyLight) == [CharacteristicSet("Standard", [easyLight])]
    ensures UpdateSets([CharacteristicSet("Standard", [easyLight])], "Standard", hardStd)
         == [CharacteristicSet("Standard", [easyLight, hardStd])]
    ensures UpdateSets([CharacteristicSet("Standard", [easyLight, hardStd])], "Standard", easyStd)
         == [CharacteristicSet("Standard", [easyStd, hardStd])]
  {
    var set1 := CharacteristicSet("Standard", [easyLight]);
    var set2 := CharacteristicSet("Standard", [easyLight, hardStd]);
    var set3 := CharacteristicSet("Standard", [easyStd, hardStd]);
    UnmatchedStyleAppendsStandardSet([], "Lightshow", easyLight);
    assert UpdateSets([], "Lightshow", easyLight) == [set1];
    assert FirstMatch([set1], "Standard") == 0;
    UpsertAppendsAfterSmaller([easyLight], hardStd);
    assert Upsert([easyLight], hardStd) == [easyLight, hardStd];
    assert UpdateSets([set1], "Standard", hardStd) == [set2];
    assert FirstMatch([set2], "Standard") == 0;
    UpsertReplacesEqualRank([easyLight, hardStd], easyStd, 0);
    assert Upsert([easyLight, hardStd], easyStd) == [easyStd, hardStd];
    assert UpdateSets([set2], "Standard", easyStd) == [set3];
  }

  /**
   * ("Lightshow", Easy), ("Standard", Hard), ("Standard", Easy): the first call creates a
   * set named "Standard", the other two reuse it, and the third replaces the Lightshow
   * entry, leaving one set [EasyStandard.dat, HardStandard.dat].
   */
  lemma LightshowThenStandardScenario(info0: Info)
    requires info0.difficultyBeatmapSets == []
    ensures var easyStd := DifficultyEntry("Easy", 1, "EasyStandard.dat", 10.0, 0.0, None);
      var hardStd := DifficultyEntry("Hard", 5, "HardStandard.dat", 10.0, 0.0, None);
      ApplyUpdates(info0, [Call(DiffInfo("Lightshow", "Easy", 10.0, 0.0), None),
                           Call(DiffInfo("Standard", "Hard", 10.0, 0.0), None),
                           Call(DiffInfo("Standard", "Easy", 10.0, 0.0), None)])
        == Success(info0.(difficultyBeatmapSets := [CharacteristicSet("Standard", [easyStd, hardStd])]))
  {
    var lightEasy := DiffInfo("Lightshow", "Easy", 10.0, 0.0);
    var stdHard := DiffInfo("Standard", "Hard", 10.0, 0.0);
    var stdEasy := DiffInfo("Standard", "Easy", 10.0, 0.0);
    var easyLight := DifficultyEntry("Easy", 1, "EasyLightshow.dat", 10.0, 0.0, None);
    var easyStd := DifficultyEntry("Easy", 1, "EasyStandard.dat", 10.0, 0.0, None);
    var hardStd := DifficultyEntry("Hard", 5, "HardStandard.dat", 10.0, 0.0, None);
    ScenarioFilenames();
    assert BuildEntry(lightEasy, None) == Success(easyLight);
    assert BuildEntry(stdHard, None) == Success(hardStd);
    assert BuildEntry(stdEasy, None) == Success(easyStd);
    var set1 := CharacteristicSet("Standard", [easyLight]);
    var set2 := CharacteristicSet("Standard", [easyLight, hardStd]);
    var set3 := CharacteristicSet("Standard", [easyStd, hardStd]);
    LightshowThenStandardSets(easyLight, hardStd, easyStd);
    var info1 := info0.(difficultyBeatmapSets := [set1]);
    var info2 := info0.(difficultyBeatmapSets := [set2]);
    var info3 := info0.(difficultyBeatmapSets := [set3]);
    assert UpdateInfo(info0, lightEasy, None) == Success(info1);
    assert UpdateInfo(info1, stdHard, None) == Success(info2);
    assert UpdateInfo(info2, stdEasy, None) == Success(info3);
    var c1, c2, c3 := Call(lightEasy, None), Call(stdHard, None), Call(stdEasy, None);
    ApplyUpdatesStep(info0, c1, [c2, c3], info1);
    ApplyUpdatesStep(info1, c2, [c3], info2);
    ApplyUpdatesStep(info2, c3, [], info3);
    assert [c3] + [] == [c3] && [c2] + [c3] == [c2, c3] && [c1] + [c2, c3] == [c1, c2, c3];
  }

  /**
   * What the code does with a characteristic other than "Standard": two "Lightshow" Easy
   * upserts create two sets, both named "Standard", each holding one entry.
   */
  lemma LightshowScenario()
    ensures var info0 := CreateInfoDict(DemoSong, DemoMap, None);
      var lightEasy := DiffInfo("Lightshow", "Easy", 10.0, 0.0);
      var entry := DifficultyEntry("Easy", 1, "EasyLightshow.dat", 10.0, 0.0, None);
      var r := ApplyUpdates(info0, [Call(lightEasy, None), Call(lightEasy, None)]);
      && r.Success?
      && r.value.difficultyBeatmapSets == [CharacteristicSet("Standard", [entry]), CharacteristicSet("Standard", [entry])]
  {
    var info0 := CreateInfoDict(DemoSong, DemoMap, None);
    var lightEasy := DiffInfo("Lightshow", "Easy", 10.0, 0.0);
    var entry := DifficultyEntry("Easy", 1, "EasyLightshow.dat", 10.0, 0.0, None);
    assert LookupRank("Easy") == Success(1);
    ScenarioFilenames();
    assert BuildEntry(lightEasy, None) == Success(entry);
    var stdSet := CharacteristicSet("Standard", [entry]);
    UnmatchedStyleAppendsStandardSet([], "Lightshow", entry);
    assert UpdateSets([], "Lightshow", entry) == [stdSet];
    UnmatchedStyleAppendsStandardSet([stdSet], "Lightshow", entry);
    assert UpdateSets([stdSet], "Lightshow", entry) == [stdSet, stdSet];
    var info1 := info0.(difficultyBeatmapSets := [stdSet]);
    var info2 := info0.(difficultyBeatmapSets := [stdSet, stdSet]);
    assert UpdateInfo(info0, lightEasy, None) == Success(info1);
    assert UpdateInfo(info1, lightEasy, None) == Success(info2);
    var calls := [Call(lightEasy, None), Call(lightEasy, None)];
    assert ApplyUpdates(info1, calls[1..]) == ApplyUpdates(info2, []);
  }

  /** The `Info.dat` dictionary that `updateDifficulty` changes in place. */
  class Document {
    var info: Info

    /** `createInfoDict`: a fresh dictionary holding the initial document. */
    constructor (songInfo: SongInfo, mapInfo: MapInfo, customSongData: Option<Json>)
      ensures info == CreateInfoDict(songInfo, mapInfo, customSongData)
    {
      info := CreateInfoDict(songInfo, mapInfo, customSongData);
    }

    /**
     * `updateDifficulty`: builds the entry, scans for the target set (appending a new
     * "Standard" set if none matches), then scans the target's entries to insert, replace
     * or append.
     */
    method UpdateDifficulty(diffInfo: DiffInfo, customData: Option<Json>) returns (outcome: Outcome<Error>)
      modifies this
      ensures outcome.Fail? <==> diffInfo.diff !in DifficultyRanks
      ensures outcome.Fail? ==> outcome.error == UnknownDifficulty(diffInfo.diff) && info == old(info)
      ensures outcome.Pass? ==>
                info == old(info).(difficultyBeatmapSets :=
                  UpdateSets(old(info.difficultyBeatmapSets), diffInfo.style, BuildEntry(diffInfo, customData).value))
      ensures UpdateInfo(old(info), diffInfo, customData) == if outcome.Pass? then Success(info) else Failure(outcome.error)
      ensures SetsWellFormed(old(info.difficultyBeatmapSets)) ==> SetsWellFormed(info.difficultyBeatmapSets)
    {
      var built := BuildEntry(diffInfo, customData);
      if built.Failure? {
        return Fail(built.error);
      }
      var entry := built.value;
      var rank := entry.difficultyRank;
      ghost var target := UpdateSets(info.difficultyBeatmapSets, diffInfo.style, entry);
      assert UpdateInfo(info, diffInfo, customData) == Success(info.(difficultyBeatmapSets := target));
      if SetsWellFormed(info.difficultyBeatmapSets) {
        UpdateSetsKeepsWellFormed(info.difficultyBeatmapSets, diffInfo.style, entry);
      }

      // Find the first set with the requested characteristic name.
      var setIndex := |info.difficultyBeatmapSets|;
      var s := 0;
      while s < |info.difficultyBeatmapSets|
        invariant info == old(info)
        invariant 0 <= s <= |info.difficultyBeatmapSets| && setIndex == |info.difficultyBeatmapSets|
        invariant forall j :: 0 <= j < s ==> info.difficultyBeatmapSets[j].beatmapCharacteristicName != diffInfo.style
      {
        if info.difficultyBeatmapSets[s].beatmapCharacteristicName == diffInfo.style {
          setIndex := s;
          break;
        }
        s := s + 1;
      }
      FirstMatchUnique(info.difficultyBeatmapSets, diffInfo.style, setIndex);
      if setIndex == |info.difficultyBeatmapSets| {
        info := info.(difficultyBeatmapSets := info.difficultyBeatmapSets + [CharacteristicSet(NewSetCharacteristic, [])]);
      }

      // Insert before the first greater rank, replace an equal rank, or append.
      ghost var grown := info;
      var entries := info.difficultyBeatmapSets[setIndex].difficultyBeatmaps;
      assert target == grown.difficultyBeatmapSets[setIndex := grown.difficultyBeatmapSets[setIndex].(difficultyBeatmaps := Upsert(entries, entry))];
      var d := 0;
      while d < |entries|
        invariant info == grown
        invariant 0 <= d <= |entries|
        invariant forall j :: 0 <= j < d ==> entries[j].difficultyRank < rank
      {
        if entries[d].difficultyRank > rank {
          UpsertInsertsBeforeGreater(entries, entry, d);
          SetEntries(setIndex, entries[..d] + [entry] + entries[d..]);
          return Pass;
        } else if entries[d].difficultyRank == rank {
          UpsertReplacesEqualRank(entries, entry, d);
          SetEntries(setIndex, entries[d := entry]);
          return Pass;
        }
        d := d + 1;
      }
      UpsertAppendsAfterSmaller(entries, entry);
      SetEntries(setIndex, entries + [entry]);
      outcome := Pass;
    }

    /** Stores `entries` as the difficulty list of set `k`, leaving everything else as it was. */
    method SetEntries(k: nat, entries: seq<DifficultyEntry>)
      requires k < |info.difficultyBeatmapSets|
      modifies this
      ensures info == old(info).(difficultyBeatmapSets := old(info.difficultyBeatmapSets)[k :=
                old(info.difficultyBeatmapSets)[k].(difficultyBeatmaps := entries)])
    {
      info := info.(difficultyBeatmapSets := info.difficultyBeatmapSets[k :=
                info.difficultyBeatmapSets[k].(difficultyBeatmaps := entries)]);
    }
  }
}
