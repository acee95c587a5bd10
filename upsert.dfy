/**
 * The list logic of `updateDifficulty`: finding the target characteristic set and the
 * sorted insert-or-update of a difficulty entry in that set, stated as functions on
 * values together with the properties the document relies on.
 */
module DifficultyUpsert {
  import opened InfoDict

  /** Entries strictly ascending by rank, hence at most one entry per rank. */
  predicate StrictlyAscending(entries: seq<DifficultyEntry>) {
    forall i, j :: 0 <= i < j < |entries| ==> entries[i].difficultyRank < entries[j].difficultyRank
  }

  /** A set whose entries are ascending and each carry the rank of its difficulty name. */
  predicate SetWellFormed(s: CharacteristicSet) {
    && StrictlyAscending(s.difficultyBeatmaps)
    && forall i :: 0 <= i < |s.difficultyBeatmaps| ==> EntryWellFormed(s.difficultyBeatmaps[i])
  }

  /** Every characteristic set of the document is well formed. */
  predicate SetsWellFormed(sets: seq<CharacteristicSet>) {
    forall k :: 0 <= k < |sets| ==> SetWellFormed(sets[k])
  }

  /** In a well-formed set no two entries share a difficulty name. */
  lemma OneEntryPerDifficulty(s: CharacteristicSet, i: nat, j: nat)
    requires SetWellFormed(s)
    requires i < j < |s.difficultyBeatmaps|
    ensures s.difficultyBeatmaps[i].difficulty != s.difficultyBeatmaps[j].difficulty
  {
  }

  /**
   * The index of the first set, in list order, named `style`, or `|sets|` when there is none.
   */
  function FirstMatch(sets: seq<CharacteristicSet>, style: string): (k: nat)
    ensures k <= |sets|
    ensures k < |sets| ==> sets[k].beatmapCharacteristicName == style
    ensures forall j :: 0 <= j < k ==> sets[j].beatmapCharacteristicName != style
  {
    if sets == [] then 0
    else if sets[0].beatmapCharacteristicName == style then 0
    else 1 + FirstMatch(sets[1..], style)
  }

  /**
   * The sorted insert-or-update: scanning in order, `e` goes before the first entry of
   * greater rank, replaces the first entry of equal rank, or is appended.
   */
  function Upsert(entries: seq<DifficultyEntry>, e: DifficultyEntry): (r: seq<DifficultyEntry>)
    ensures |entries| <= |r| <= |entries| + 1
    ensures e in r
  {
    if entries == [] then [e]
    else if entries[0].difficultyRank > e.difficultyRank then [e] + entries
    else if entries[0].difficultyRank == e.difficultyRank then [e] + entries[1..]
    else [entries[0]] + Upsert(entries[1..], e)
  }

  /** Nothing but `e` is added, and only an entry of `e`'s rank can be lost. */
  lemma {:induction false} UpsertElements(entries: seq<DifficultyEntry>, e: DifficultyEntry)
    ensures forall x :: x in Upsert(entries, e) ==> x == e || x in entries
    ensures forall x :: x in entries && x.difficultyRank != e.difficultyRank ==> x in Upsert(entries, e)
  {
    if entries != [] && entries[0].difficultyRank < e.difficultyRank {
      UpsertElements(entries[1..], e);
      assert entries == [entries[0]] + entries[1..];
    }
  }

  /** Equal-rank case: the first entry not below `e`'s rank has its rank, and is replaced in place. */
  lemma {:induction false} UpsertReplacesEqualRank(entries: seq<DifficultyEntry>, e: DifficultyEntry, d: nat)
    requires d < |entries|
    requires forall j :: 0 <= j < d ==> entries[j].difficultyRank < e.difficultyRank
    requires entries[d].difficultyRank == e.difficultyRank
    ensures Upsert(entries, e) == entries[d := e]
    ensures |Upsert(entries, e)| == |entries|
  {
    if d > 0 {
      var rest := entries[1..];
      UpsertReplacesEqualRank(rest, e, d - 1);
      assert Upsert(entries, e) == [entries[0]] + Upsert(rest, e);
      assert entries[d := e] == [entries[0]] + rest[d - 1 := e];
    } else {
      assert Upsert(entries, e) == [e] + entries[1..];
    }
  }

  /** Greater-rank case: `e` lands at the index of the first entry of greater rank, the others keep their order. */
  lemma {:induction false} UpsertInsertsBeforeGreater(entries: seq<DifficultyEntry>, e: DifficultyEntry, d: nat)
    requires d < |entries|
    requires forall j :: 0 <= j < d ==> entries[j].difficultyRank < e.difficultyRank
    requires entries[d].difficultyRank > e.difficultyRank
    ensures Upsert(entries, e) == entries[..d] + [e] + entries[d..]
    ensures |Upsert(entries, e)| == |entries| + 1
  {
    if d > 0 {
      var rest := entries[1..];
      UpsertInsertsBeforeGreater(rest, e, d - 1);
      assert Upsert(entries, e) == [entries[0]] + Upsert(rest, e);
      assert entries[..d] == [entries[0]] + rest[..d - 1];
      assert entries[d..] == rest[d - 1..];
    } else {
      assert entries[..0] + [e] + entries[0..] == [e] + entries;
    }
  }

  /** When every entry ranks below `e`, `e` is appended at the end. */
  lemma {:induction false} UpsertAppendsAfterSmaller(entries: seq<DifficultyEntry>, e: DifficultyEntry)
    requires forall j :: 0 <= j < |entries| ==> entries[j].difficultyRank < e.difficultyRank
    ensures Upsert(entries, e) == entries + [e]
  {
    if entries != [] {
      UpsertAppendsAfterSmaller(entries[1..], e);
      assert entries + [e] == [entries[0]] + (entries[1..] + [e]);
    }
  }

  /** The insert-or-update keeps the entries strictly ascending by rank. */
  lemma {:induction false} UpsertKeepsAscending(entries: seq<DifficultyEntry>, e: DifficultyEntry)
    requires StrictlyAscending(entries)
    ensures StrictlyAscending(Upsert(entries, e))
  {
    if entries != [] && entries[0].difficultyRank < e.difficultyRank {
      var rest := entries[1..];
      UpsertKeepsAscending(rest, e);
      UpsertElements(rest, e);
      var u := Upsert(rest, e);
      forall j | 0 <= j < |u|
        ensures entries[0].difficultyRank < u[j].difficultyRank
      {
        assert u[j] in u;
        if u[j] != e {
          var m :| 0 <= m < |rest| && rest[m] == u[j];
          assert entries[m + 1] == rest[m];
        }
      }
    }
  }

  /** Position `i` holds `e`, and no other position carries `e`'s rank. */
  predicate OnlyEntryWithRank(r: seq<DifficultyEntry>, i: int, e: DifficultyEntry) {
    && 0 <= i < |r| && r[i] == e
    && forall j :: 0 <= j < |r| && j != i ==> r[j].difficultyRank != e.difficultyRank
  }

  /** After the insert-or-update of a sorted list, exactly one entry carries `e`'s rank, and it is `e`. */
  lemma UpsertSingleEntryForRank(entries: seq<DifficultyEntry>, e: DifficultyEntry)
    requires StrictlyAscending(entries)
    ensures exists i :: OnlyEntryWithRank(Upsert(entries, e), i, e)
  {
    UpsertKeepsAscending(entries, e);
    var r := Upsert(entries, e);
    var i :| 0 <= i < |r| && r[i] == e;
    assert OnlyEntryWithRank(r, i, e);
  }

  /** Re-upserting the same rank replaces the earlier call's entry: the second call's parameters win. */
  lemma {:induction false} UpsertSameRankLastWins(entries: seq<DifficultyEntry>, e1: DifficultyEntry, e2: DifficultyEntry)
    requires e1.difficultyRank == e2.difficultyRank
    ensures Upsert(Upsert(entries, e1), e2) == Upsert(entries, e2)
  {
    if entries != [] && entries[0].difficultyRank < e1.difficultyRank {
      UpsertSameRankLastWins(entries[1..], e1, e2);
    }
  }

  /** On any list, sorted or not, upserts of two different ranks give the same list in either order. */
  lemma {:induction false} UpsertCommutes(entries: seq<DifficultyEntry>, e1: DifficultyEntry, e2: DifficultyEntry)
    requires e1.difficultyRank != e2.difficultyRank
    ensures Upsert(Upsert(entries, e1), e2) == Upsert(Upsert(entries, e2), e1)
  {
    if entries == [] {
    } else {
      var h := entries[0];
      var rest := entries[1..];
      if h.difficultyRank < e1.difficultyRank && h.difficultyRank < e2.difficultyRank {
        UpsertCommutes(rest, e1, e2);
      } else if h.difficultyRank < e2.difficultyRank {
        assert Upsert(entries, e2) == [h] + Upsert(rest, e2);
      } else if h.difficultyRank < e1.difficultyRank {
        assert Upsert(entries, e1) == [h] + Upsert(rest, e1);
      }
    }
  }

  /**
   * The whole change `updateDifficulty` makes to the list of sets: the target is the first
   * set named `style`; when there is none a new set named "Standard" is appended (whatever
   * `style` is) and becomes the target; `e` is upserted into the target's entries.
   */
  function UpdateSets(sets: seq<CharacteristicSet>, style: string, e: DifficultyEntry): (r: seq<CharacteristicSet>)
    ensures |r| == |sets| <==> exists j :: 0 <= j < |sets| && sets[j].beatmapCharacteristicName == style
    ensures |sets| <= |r| <= |sets| + 1
    ensures forall j :: 0 <= j < |sets| && j != FirstMatch(sets, style) ==> r[j] == sets[j]
    ensures FirstMatch(sets, style) < |sets| ==>
              r[FirstMatch(sets, style)] == sets[FirstMatch(sets, style)].(difficultyBeatmaps := Upsert(sets[FirstMatch(sets, style)].difficultyBeatmaps, e))
    ensures |r| == |sets| + 1 ==> r[|sets|] == CharacteristicSet(NewSetCharacteristic, [e])
  {
    var k := FirstMatch(sets, style);
    var grown := if k == |sets| then sets + [CharacteristicSet(NewSetCharacteristic, [])] else sets;
    grown[k := grown[k].(difficultyBeatmaps := Upsert(grown[k].difficultyBeatmaps, e))]
  }

  /** A well-formed entry upserted into well-formed sets leaves them well formed. */
  lemma UpdateSetsKeepsWellFormed(sets: seq<CharacteristicSet>, style: string, e: DifficultyEntry)
    requires SetsWellFormed(sets) && EntryWellFormed(e)
    ensures SetsWellFormed(UpdateSets(sets, style, e))
  {
    var k := FirstMatch(sets, style);
    var r := UpdateSets(sets, style, e);
    if k < |sets| {
      var entries := sets[k].difficultyBeatmaps;
      assert SetWellFormed(sets[k]);
      UpsertKeepsAscending(entries, e);
      UpsertElements(entries, e);
      var u := Upsert(entries, e);
      forall i | 0 <= i < |u| ensures EntryWellFormed(u[i]) {
        assert u[i] in u;
        if u[i] != e {
          var m :| 0 <= m < |entries| && entries[m] == u[i];
        }
      }
      assert SetWellFormed(r[k]);
    } else {
      assert SetWellFormed(r[k]);
    }
  }

  /**
   * A characteristic name other than "Standard" that names no set is never found: the call
   * appends a new "Standard" set holding only `e`, and afterwards there is still no set of that name.
   */
  lemma UnmatchedStyleAppendsStandardSet(sets: seq<CharacteristicSet>, style: string, e: DifficultyEntry)
    requires forall j :: 0 <= j < |sets| ==> sets[j].beatmapCharacteristicName != style
    ensures UpdateSets(sets, style, e) == sets + [CharacteristicSet(NewSetCharacteristic, [e])]
    ensures style != NewSetCharacteristic ==>
              forall j :: 0 <= j < |UpdateSets(sets, style, e)| ==> UpdateSets(sets, style, e)[j].beatmapCharacteristicName != style
  {
  }

  /** Every set is named "Standard", the only name a set created by an update can have. */
  predicate AllNamedStandard(sets: seq<CharacteristicSet>) {
    forall k :: 0 <= k < |sets| ==> sets[k].beatmapCharacteristicName == NewSetCharacteristic
  }

  /** An update, for any characteristic, never introduces a set with a name other than "Standard". */
  lemma UpdateSetsKeepsAllStandard(sets: seq<CharacteristicSet>, style: string, e: DifficultyEntry)
    requires AllNamedStandard(sets)
    ensures AllNamedStandard(UpdateSets(sets, style, e))
  {
  }

  /** Updating "Standard" keeps the first "Standard" set where it was, or appends it as the last set. */
  lemma StandardSetIsReused(sets: seq<CharacteristicSet>, e: DifficultyEntry)
    ensures var r := UpdateSets(sets, NewSetCharacteristic, e);
      FirstMatch(r, NewSetCharacteristic) == FirstMatch(sets, NewSetCharacteristic)
  {
  }

  /** Any index meeting FirstMatch's characterisation is FirstMatch. */
  lemma FirstMatchUnique(sets: seq<CharacteristicSet>, style: string, k: nat)
    requires k <= |sets|
    requires k < |sets| ==> sets[k].beatmapCharacteristicName == style
    requires forall j :: 0 <= j < k ==> sets[j].beatmapCharacteristicName != style
    ensures FirstMatch(sets, style) == k
  {
  }

  /** On any sets, two "Standard" updates of different ranks give the same sets in either order. */
  lemma StandardUpdatesCommute(sets: seq<CharacteristicSet>, e1: DifficultyEntry, e2: DifficultyEntry)
    requires e1.difficultyRank != e2.difficultyRank
    ensures UpdateSets(UpdateSets(sets, NewSetCharacteristic, e1), NewSetCharacteristic, e2)
         == UpdateSets(UpdateSets(sets, NewSetCharacteristic, e2), NewSetCharacteristic, e1)
  {
    var style := NewSetCharacteristic;
    var k := FirstMatch(sets, style);
    var a := UpdateSets(sets, style, e1);
    var b := UpdateSets(sets, style, e2);
    StandardSetIsReused(sets, e1);
    StandardSetIsReused(sets, e2);
    var entries := if k < |sets| then sets[k].difficultyBeatmaps else [];
    UpsertCommutes(entries, e1, e2);
    var ab := UpdateSets(a, style, e2);
    var ba := UpdateSets(b, style, e1);
    assert |ab| == |ba|;
    forall j | 0 <= j < |ab| ensures ab[j] == ba[j] {
    }
  }

  /** Two "Standard" updates of the same rank leave what the second alone would: the last call wins. */
  lemma StandardUpdatesLastWins(sets: seq<CharacteristicSet>, e1: DifficultyEntry, e2: DifficultyEntry)
    requires e1.difficultyRank == e2.difficultyRank
    ensures UpdateSets(UpdateSets(sets, NewSetCharacteristic, e1), NewSetCharacteristic, e2)
         == UpdateSets(sets, NewSetCharacteristic, e2)
  {
    var style := NewSetCharacteristic;
    var k := FirstMatch(sets, style);
    StandardSetIsReused(sets, e1);
    var entries := if k < |sets| then sets[k].difficultyBeatmaps else [];
    UpsertSameRankLastWins(entries, e1, e2);
    var a := UpdateSets(UpdateSets(sets, style, e1), style, e2);
    var b := UpdateSets(sets, style, e2);
    assert |a| == |b|;
    forall j | 0 <= j < |a| ensures a[j] == b[j] {
    }
  }
}
