/** What `LoadSong` makes of a manifest's difficulty-beatmap sets, as values:
    the characteristics it draws a level for, the beatmaps each level gets,
    the beatmap-data instances it draws, and the levels it hands back. */
module Assembly {
  import opened Host
  import opened LevelInfo
  import opened CustomLevel

  /** The characteristic a set is filed under, when its name is one. */
  function SetCharacteristic(s: DifficultyBeatmapSet): Option<Characteristic>
  {
    ParseCharacteristic(s.beatmapCharacteristicName)
  }

  /** An entry with JSON text: it is given a beatmap-data instance. */
  predicate HasJson(b: DifficultyBeatmap)
  {
    b.jsonData.Some? && b.jsonData.value != ""
  }

  /** An entry that becomes a beatmap: JSON text and a known difficulty. */
  predicate Usable(b: DifficultyBeatmap)
  {
    HasJson(b) && ParseDifficulty(b.difficulty).Some?
  }

  /** The parts of a built beatmap that come from its entry. */
  datatype BeatmapShape = BeatmapShape(
    difficulty: LevelDifficulty,
    difficultyRank: int,
    noteJumpMovementSpeed: Float,
    jsonData: string)

  function Shape(b: DifficultyBeatmap): BeatmapShape
    requires Usable(b)
  {
    BeatmapShape(ParseDifficulty(b.difficulty).value, b.difficultyRank, b.noteJumpMovementSpeed, b.jsonData.value)
  }

  /** The beatmaps built from one set's entries, in order. */
  function Kept(bs: seq<DifficultyBeatmap>): seq<BeatmapShape>
  {
    if bs == [] then []
    else Kept(bs[..|bs| - 1]) + (if Usable(bs[|bs| - 1]) then [Shape(bs[|bs| - 1])] else [])
  }

  /** The beatmap-data instances one set's entries draw. */
  function JsonCount(bs: seq<DifficultyBeatmap>): nat
  {
    if bs == [] then 0
    else JsonCount(bs[..|bs| - 1]) + (if HasJson(bs[|bs| - 1]) then 1 else 0)
  }

  /** The beatmaps of the level for `c`: the kept entries of every set
      filed under `c`, set after set, in declaration order. */
  function Expected(sets: seq<DifficultyBeatmapSet>, c: Characteristic): seq<BeatmapShape>
  {
    if sets == [] then []
    else
      var last := sets[|sets| - 1];
      Expected(sets[..|sets| - 1], c) + (if SetCharacteristic(last) == Some(c) then Kept(last.difficultyBeatmaps) else [])
  }

  /** The beatmap-data instances drawn for all sets with a known characteristic. */
  function DataDraws(sets: seq<DifficultyBeatmapSet>): nat
  {
    if sets == [] then 0
    else
      var last := sets[|sets| - 1];
      DataDraws(sets[..|sets| - 1]) + (if SetCharacteristic(last).Some? then JsonCount(last.difficultyBeatmaps) else 0)
  }

  /** The characteristics a level is drawn for, in order of first appearance. */
  function Chars(sets: seq<DifficultyBeatmapSet>): seq<Characteristic>
  {
    if sets == [] then []
    else
      var prev, c := Chars(sets[..|sets| - 1]), SetCharacteristic(sets[|sets| - 1]);
      if c.Some? && c.value !in prev then prev + [c.value] else prev
  }

  /** The characteristics of `cs` whose level has at least one beatmap. */
  function NonEmpty(cs: seq<Characteristic>, sets: seq<DifficultyBeatmapSet>): seq<Characteristic>
  {
    if cs == [] then []
    else NonEmpty(cs[..|cs| - 1], sets) + (if Expected(sets, cs[|cs| - 1]) != [] then [cs[|cs| - 1]] else [])
  }

  /** The characteristics of the levels handed back, in order. */
  function Emitted(sets: seq<DifficultyBeatmapSet>): seq<Characteristic>
  {
    NonEmpty(Chars(sets), sets)
  }

  /** A characteristic is drawn for exactly when some set is filed under it. */
  lemma {:induction false} CharsMembership(sets: seq<DifficultyBeatmapSet>, c: Characteristic)
    ensures c in Chars(sets) <==> exists i :: 0 <= i < |sets| && SetCharacteristic(sets[i]) == Some(c)
  {
    if sets != [] {
      var n := |sets| - 1;
      CharsMembership(sets[..n], c);
      if exists i :: 0 <= i < |sets| && SetCharacteristic(sets[i]) == Some(c) {
        var i :| 0 <= i < |sets| && SetCharacteristic(sets[i]) == Some(c);
        if i < n {
          assert sets[..n][i] == sets[i];
        }
      }
      if exists i :: 0 <= i < n && SetCharacteristic(sets[..n][i]) == Some(c) {
        var i :| 0 <= i < n && SetCharacteristic(sets[..n][i]) == Some(c);
        assert sets[i] == sets[..n][i];
      }
    }
  }

  /** How many characteristics `cs` does not mention. */
  function Unused(cs: seq<Characteristic>): nat
  {
    (if Standard in cs then 0 else 1) + (if NoArrows in cs then 0 else 1) + (if OneSaber in cs then 0 else 1)
  }

  /** At most one level per characteristic. */
  lemma {:induction false} CharsDistinct(sets: seq<DifficultyBeatmapSet>)
    ensures Distinct(Chars(sets))
    ensures |Chars(sets)| + Unused(Chars(sets)) == 3
  {
    if sets != [] {
      CharsDistinct(sets[..|sets| - 1]);
    }
  }

  /** Sets filed under `c` add their entries at the end of its list. */
  lemma {:induction false} ExpectedAppend(s1: seq<DifficultyBeatmapSet>, s2: seq<DifficultyBeatmapSet>, c: Characteristic)
    ensures Expected(s1 + s2, c) == Expected(s1, c) + Expected(s2, c)
  {
    if s2 == [] {
      assert s1 + s2 == s1;
    } else {
      var n := |s2| - 1;
      assert (s1 + s2)[..|s1 + s2| - 1] == s1 + s2[..n];
      ExpectedAppend(s1, s2[..n], c);
    }
  }

  /** A level's beatmaps come only from sets filed under its characteristic. */
  lemma {:induction false} ExpectedNeedsSet(sets: seq<DifficultyBeatmapSet>, c: Characteristic)
    requires Expected(sets, c) != []
    ensures c in Chars(sets)
  {
    var n := |sets| - 1;
    if SetCharacteristic(sets[n]) == Some(c) {
      CharsMembership(sets, c);
    } else {
      ExpectedNeedsSet(sets[..n], c);
    }
  }

  lemma {:induction false} NonEmptyMembership(cs: seq<Characteristic>, sets: seq<DifficultyBeatmapSet>, c: Characteristic)
    ensures c in NonEmpty(cs, sets) <==> c in cs && Expected(sets, c) != []
  {
    if cs != [] {
      NonEmptyMembership(cs[..|cs| - 1], sets, c);
      assert cs == cs[..|cs| - 1] + [cs[|cs| - 1]];
    }
  }

  lemma {:induction false} NonEmptyDistinct(cs: seq<Characteristic>, sets: seq<DifficultyBeatmapSet>)
    requires Distinct(cs)
    ensures Distinct(NonEmpty(cs, sets)) && |NonEmpty(cs, sets)| <= |cs|
  {
    if cs != [] {
      var n := |cs| - 1;
      NonEmptyDistinct(cs[..n], sets);
      NonEmptyMembership(cs[..n], sets, cs[n]);
      assert cs[n] !in cs[..n];
    }
  }

  /** A level is handed back exactly for the characteristics with at least
      one kept entry, once each, and never more than one per characteristic. */
  lemma EmittedMembership(sets: seq<DifficultyBeatmapSet>, c: Characteristic)
    ensures c in Emitted(sets) <==> Expected(sets, c) != []
    ensures Distinct(Emitted(sets)) && |Emitted(sets)| <= |Chars(sets)|
  {
    NonEmptyMembership(Chars(sets), sets, c);
    CharsDistinct(sets);
    NonEmptyDistinct(Chars(sets), sets);
    if Expected(sets, c) != [] {
      ExpectedNeedsSet(sets, c);
    }
  }

  lemma {:induction false} KeptEmpty(bs: seq<DifficultyBeatmap>)
    requires forall j :: 0 <= j < |bs| ==> !Usable(bs[j])
    ensures Kept(bs) == []
  {
    if bs != [] {
      KeptEmpty(bs[..|bs| - 1]);
    }
  }

  /** With no usable entry anywhere, no level is handed back. */
  lemma {:induction false} NothingUsable(sets: seq<DifficultyBeatmapSet>)
    requires forall i, j :: 0 <= i < |sets| && 0 <= j < |sets[i].difficultyBeatmaps| ==> !Usable(sets[i].difficultyBeatmaps[j])
    ensures Emitted(sets) == []
  {
    forall c ensures Expected(sets, c) == [] {
      ExpectedNone(sets, c);
    }
    if Emitted(sets) != [] {
      EmittedMembership(sets, Emitted(sets)[0]);
    }
  }

  lemma {:induction false} ExpectedNone(sets: seq<DifficultyBeatmapSet>, c: Characteristic)
    requires forall i, j :: 0 <= i < |sets| && 0 <= j < |sets[i].difficultyBeatmaps| ==> !Usable(sets[i].difficultyBeatmaps[j])
    ensures Expected(sets, c) == []
  {
    if sets != [] {
      var n := |sets| - 1;
      ExpectedNone(sets[..n], c);
      KeptEmpty(sets[n].difficultyBeatmaps);
    }
  }

  lemma {:induction false} KeptBound(bs: seq<DifficultyBeatmap>)
    ensures |Kept(bs)| <= JsonCount(bs)
  {
    if bs != [] {
      KeptBound(bs[..|bs| - 1]);
    }
  }

  /** Every beatmap of a level used up one beatmap-data instance; so can an
      entry whose difficulty does not parse. */
  lemma {:induction false} DataDrawsBound(sets: seq<DifficultyBeatmapSet>, c: Characteristic)
    ensures |Expected(sets, c)| <= DataDraws(sets)
  {
    if sets != [] {
      var n := |sets| - 1;
      DataDrawsBound(sets[..n], c);
      KeptBound(sets[n].difficultyBeatmaps);
    }
  }

  /** Refilling the texts from the files changes no characteristic name. */
  lemma {:induction false} CharsIgnoreTexts(fs: FileSystem, dir: string, sets: seq<DifficultyBeatmapSet>)
    ensures Chars(FillJson(fs, dir, sets)) == Chars(sets)
  {
    if sets != [] {
      var n := |sets| - 1;
      assert FillJson(fs, dir, sets)[..n] == FillJson(fs, dir, sets[..n]);
      CharsIgnoreTexts(fs, dir, sets[..n]);
    }
  }
}
