/** `CustomLevelInfo`: a level's manifest (`info.dat`) as deserialised, its
    folder, and the content identity computed from the bytes of the manifest
    and of its beatmap files. */
module LevelInfo {
  import opened Host
  import Hashing

  const InfoFileName: string := "info.dat"
  const LevelIdPrefix: string := "custom_level_"

  /** One difficulty of a set. `jsonData` is `None` while it is null. */
  datatype DifficultyBeatmap = DifficultyBeatmap(
    jsonData: Option<string>,
    difficulty: string,
    difficultyRank: int,
    beatmapFilename: string,
    noteJumpMovementSpeed: Float,
    noteJumpStartBeatOffset: Float)

  datatype DifficultyBeatmapSet = DifficultyBeatmapSet(
    beatmapCharacteristicName: string,
    difficultyBeatmaps: seq<DifficultyBeatmap>)

  /** What the JSON deserialiser can fill: the class is opt-in, so only the
      members carrying a JSON property appear here. `levelPath` and
      `jsonData` have none, so no manifest can set them. */
  datatype ManifestBeatmap = ManifestBeatmap(
    difficulty: string,
    difficultyRank: int,
    beatmapFilename: string,
    noteJumpMovementSpeed: Float,
    noteJumpStartBeatOffset: Float)

  datatype ManifestSet = ManifestSet(
    beatmapCharacteristicName: string,
    difficultyBeatmaps: seq<ManifestBeatmap>)

  datatype Manifest = Manifest(
    songName: string,
    songSubName: string,
    songAuthorName: string,
    levelAuthorName: string,
    beatsPerMinute: Float,
    songTimeOffset: Float,
    shuffle: Float,
    shufflePeriod: Float,
    previewStartTime: Float,
    previewDuration: Float,
    songFilename: string,
    coverImageFilename: string,
    environmentName: string,
    allDirectionsEnvironmentName: string,
    difficultyBeatmapSets: seq<ManifestSet>)

  /** The beatmap sets of a freshly deserialised manifest. */
  function DeserializedSets(ms: seq<ManifestSet>): (sets: seq<DifficultyBeatmapSet>)
    ensures |sets| == |ms|
    ensures forall i :: 0 <= i < |ms| ==>
      sets[i].beatmapCharacteristicName == ms[i].beatmapCharacteristicName &&
      |sets[i].difficultyBeatmaps| == |ms[i].difficultyBeatmaps|
    ensures forall i, j :: 0 <= i < |ms| && 0 <= j < |ms[i].difficultyBeatmaps| ==>
      var b, m := sets[i].difficultyBeatmaps[j], ms[i].difficultyBeatmaps[j];
      b.jsonData == None && b.difficulty == m.difficulty && b.difficultyRank == m.difficultyRank &&
      b.beatmapFilename == m.beatmapFilename && b.noteJumpMovementSpeed == m.noteJumpMovementSpeed &&
      b.noteJumpStartBeatOffset == m.noteJumpStartBeatOffset
  {
    seq(|ms|, i requires 0 <= i < |ms| =>
      DifficultyBeatmapSet(ms[i].beatmapCharacteristicName,
        seq(|ms[i].difficultyBeatmaps|, j requires 0 <= j < |ms[i].difficultyBeatmaps| =>
          var m := ms[i].difficultyBeatmaps[j];
          DifficultyBeatmap(None, m.difficulty, m.difficultyRank, m.beatmapFilename,
                            m.noteJumpMovementSpeed, m.noteJumpStartBeatOffset))))
  }

  function BeatmapPath(dir: string, b: DifficultyBeatmap): string
  {
    Combine(dir, b.beatmapFilename)
  }

  /** The bytes one beatmap adds to the hash input: its file, or nothing. */
  function BeatmapBytes(fs: FileSystem, dir: string, b: DifficultyBeatmap): seq<byte>
  {
    var p := BeatmapPath(dir, b);
    if p in fs then fs[p].bytes else []
  }

  function BeatmapsBytes(fs: FileSystem, dir: string, bs: seq<DifficultyBeatmap>): seq<byte>
  {
    if bs == [] then []
    else BeatmapsBytes(fs, dir, bs[..|bs| - 1]) + BeatmapBytes(fs, dir, bs[|bs| - 1])
  }

  function SetsBytes(fs: FileSystem, dir: string, sets: seq<DifficultyBeatmapSet>): seq<byte>
  {
    if sets == [] then []
    else SetsBytes(fs, dir, sets[..|sets| - 1]) + BeatmapsBytes(fs, dir, sets[|sets| - 1].difficultyBeatmaps)
  }

  /** The bytes `GetLevelData` hashes: the manifest, then every existing beatmap file. */
  function HashInput(fs: FileSystem, dir: string, sets: seq<DifficultyBeatmapSet>): seq<byte>
    requires Combine(dir, InfoFileName) in fs
  {
    fs[Combine(dir, InfoFileName)].bytes + SetsBytes(fs, dir, sets)
  }

  /** The content identity of a level. */
  function LevelId(sha1: seq<byte> -> seq<byte>, fs: FileSystem, dir: string, sets: seq<DifficultyBeatmapSet>): (id: string)
    requires Combine(dir, InfoFileName) in fs
    ensures |id| == |LevelIdPrefix| + 2 * |sha1(HashInput(fs, dir, sets))|
    ensures id[..|LevelIdPrefix|] == LevelIdPrefix
    ensures id[|LevelIdPrefix|..] == Hashing.Hex(sha1(HashInput(fs, dir, sets)))
  {
    LevelIdPrefix + Hashing.CreateHash(sha1, HashInput(fs, dir, sets))
  }

  /** The beatmap after `GetLevelData`: the text of its file when the file exists. */
  function FillBeatmap(fs: FileSystem, dir: string, b: DifficultyBeatmap): DifficultyBeatmap
  {
    var p := BeatmapPath(dir, b);
    if p in fs then b.(jsonData := Some(fs[p].text)) else b
  }

  function FillBeatmaps(fs: FileSystem, dir: string, bs: seq<DifficultyBeatmap>): seq<DifficultyBeatmap>
  {
    seq(|bs|, j requires 0 <= j < |bs| => FillBeatmap(fs, dir, bs[j]))
  }

  /** The beatmap sets after `GetLevelData`. */
  function FillJson(fs: FileSystem, dir: string, sets: seq<DifficultyBeatmapSet>): (r: seq<DifficultyBeatmapSet>)
    ensures |r| == |sets|
  {
    seq(|sets|, i requires 0 <= i < |sets| =>
      sets[i].(difficultyBeatmaps := FillBeatmaps(fs, dir, sets[i].difficultyBeatmaps)))
  }

  /** The manifest, as `CustomLevelInfo` holds it after deserialisation. */
  class CustomLevelInfo {
    const levelPath: string
    const songName: string
    const songSubName: string
    const songAuthorName: string
    const levelAuthorName: string
    const beatsPerMinute: Float
    const songTimeOffset: Float
    const shuffle: Float
    const shufflePeriod: Float
    const previewStartTime: Float
    const previewDuration: Float
    const songFilename: string
    const coverImageFilename: string
    const environmentName: string
    const allDirectionsEnvironmentName: string
    var difficultyBeatmapSets: seq<DifficultyBeatmapSet>

    /** Every manifest field is the manifest's, and the folder is `dir`. */
    ghost predicate Describes(m: Manifest, dir: string)
    {
      && levelPath == dir
      && songName == m.songName && songSubName == m.songSubName
      && songAuthorName == m.songAuthorName && levelAuthorName == m.levelAuthorName
      && beatsPerMinute == m.beatsPerMinute && songTimeOffset == m.songTimeOffset
      && shuffle == m.shuffle && shufflePeriod == m.shufflePeriod
      && previewStartTime == m.previewStartTime && previewDuration == m.previewDuration
      && songFilename == m.songFilename && coverImageFilename == m.coverImageFilename
      && environmentName == m.environmentName
      && allDirectionsEnvironmentName == m.allDirectionsEnvironmentName
    }

    /** Deserialising manifest `m`, then setting `levelPath` to the folder it was read from. */
    constructor (m: Manifest, dir: string)
      ensures Describes(m, dir)
      ensures difficultyBeatmapSets == DeserializedSets(m.difficultyBeatmapSets)
    {
      levelPath := dir;
      songName := m.songName;
      songSubName := m.songSubName;
      songAuthorName := m.songAuthorName;
      levelAuthorName := m.levelAuthorName;
      beatsPerMinute := m.beatsPerMinute;
      songTimeOffset := m.songTimeOffset;
      shuffle := m.shuffle;
      shufflePeriod := m.shufflePeriod;
      previewStartTime := m.previewStartTime;
      previewDuration := m.previewDuration;
      songFilename := m.songFilename;
      coverImageFilename := m.coverImageFilename;
      environmentName := m.environmentName;
      allDirectionsEnvironmentName := m.allDirectionsEnvironmentName;
      difficultyBeatmapSets := DeserializedSets(m.difficultyBeatmapSets);
    }

    /** Hashes the manifest and the existing beatmap files, in declared
        order, and stores each existing file's text in its beatmap. Reading a
        missing manifest throws before anything is changed; `None` stands for
        that exception. */
    method GetLevelData(fs: FileSystem, sha1: seq<byte> -> seq<byte>) returns (id: Option<string>)
      modifies this`difficultyBeatmapSets
      ensures Combine(levelPath, InfoFileName) !in fs ==>
        id.None? && difficultyBeatmapSets == old(difficultyBeatmapSets)
      ensures Combine(levelPath, InfoFileName) in fs ==>
        && id == Some(LevelId(sha1, fs, levelPath, old(difficultyBeatmapSets)))
        && difficultyBeatmapSets == FillJson(fs, levelPath, old(difficultyBeatmapSets))
    {
      if Combine(levelPath, InfoFileName) !in fs {
        return None;
      }
      var sets := difficultyBeatmapSets;
      var combined := fs[Combine(levelPath, InfoFileName)].bytes;
      var filled: seq<DifficultyBeatmapSet> := [];
      var i := 0;
      while i < |sets|
        invariant 0 <= i <= |sets| && |filled| == i
        invariant combined == fs[Combine(levelPath, InfoFileName)].bytes + SetsBytes(fs, levelPath, sets[..i])
        invariant filled == FillJson(fs, levelPath, sets[..i])
      {
        var bytes, bs := ReadBeatmaps(fs, levelPath, sets[i].difficultyBeatmaps);
        assert sets[..i + 1][..i] == sets[..i];
        combined := combined + bytes;
        filled := filled + [sets[i].(difficultyBeatmaps := bs)];
        i := i + 1;
      }
      assert sets[..i] == sets;
      difficultyBeatmapSets := filled;
      id := Some(LevelIdPrefix + Hashing.CreateHash(sha1, combined));
    }
  }

  /** The inner loop of `GetLevelData`: the bytes of the existing files of
      one set's beatmaps, and the beatmaps with their texts filled in. */
  method ReadBeatmaps(fs: FileSystem, dir: string, beatmaps: seq<DifficultyBeatmap>)
    returns (bytes: seq<byte>, filled: seq<DifficultyBeatmap>)
    ensures bytes == BeatmapsBytes(fs, dir, beatmaps)
    ensures filled == FillBeatmaps(fs, dir, beatmaps)
  {
    bytes, filled := [], beatmaps;
    var j := 0;
    while j < |beatmaps|
      invariant 0 <= j <= |beatmaps| == |filled|
      invariant bytes == BeatmapsBytes(fs, dir, beatmaps[..j])
      invariant forall k :: 0 <= k < j ==> filled[k] == FillBeatmap(fs, dir, beatmaps[k])
      invariant forall k :: j <= k < |filled| ==> filled[k] == beatmaps[k]
    {
      var beatmapPath := Combine(dir, beatmaps[j].beatmapFilename);
      assert beatmaps[..j + 1][..j] == beatmaps[..j];
      if beatmapPath in fs {
        bytes := bytes + fs[beatmapPath].bytes;
        filled := filled[j := filled[j].(jsonData := Some(fs[beatmapPath].text))];
      }
      j := j + 1;
    }
    assert beatmaps[..j] == beatmaps;
  }

  /** The beatmap files of two folders agree: the same names exist in both,
      with the same bytes and text, and so does the manifest. */
  ghost predicate SameContents(fs1: FileSystem, dir1: string, fs2: FileSystem, dir2: string)
  {
    forall name :: (Combine(dir1, name) in fs1 <==> Combine(dir2, name) in fs2) &&
                   (Combine(dir1, name) in fs1 ==> fs1[Combine(dir1, name)] == fs2[Combine(dir2, name)])
  }

  lemma {:induction false} BeatmapsBytesSameContents(fs1: FileSystem, dir1: string, fs2: FileSystem, dir2: string,
                                                     bs: seq<DifficultyBeatmap>)
    requires SameContents(fs1, dir1, fs2, dir2)
    ensures BeatmapsBytes(fs1, dir1, bs) == BeatmapsBytes(fs2, dir2, bs)
  {
    if bs != [] {
      BeatmapsBytesSameContents(fs1, dir1, fs2, dir2, bs[..|bs| - 1]);
      var name := bs[|bs| - 1].beatmapFilename;
      assert Combine(dir1, name) in fs1 <==> Combine(dir2, name) in fs2;
    }
  }

  lemma {:induction false} SetsBytesSameContents(fs1: FileSystem, dir1: string, fs2: FileSystem, dir2: string,
                                                 sets: seq<DifficultyBeatmapSet>)
    requires SameContents(fs1, dir1, fs2, dir2)
    ensures SetsBytes(fs1, dir1, sets) == SetsBytes(fs2, dir2, sets)
  {
    if sets != [] {
      SetsBytesSameContents(fs1, dir1, fs2, dir2, sets[..|sets| - 1]);
      BeatmapsBytesSameContents(fs1, dir1, fs2, dir2, sets[|sets| - 1].difficultyBeatmaps);
    }
  }

  /** The identity depends on file contents only, never on the folder's
      name: two folders holding the same files get the same identity. */
  lemma LevelIdIgnoresFolder(sha1: seq<byte> -> seq<byte>, fs1: FileSystem, dir1: string, fs2: FileSystem, dir2: string,
                             sets: seq<DifficultyBeatmapSet>)
    requires SameContents(fs1, dir1, fs2, dir2)
    requires Combine(dir1, InfoFileName) in fs1
    ensures Combine(dir2, InfoFileName) in fs2
    ensures LevelId(sha1, fs1, dir1, sets) == LevelId(sha1, fs2, dir2, sets)
  {
    assert Combine(dir1, InfoFileName) in fs1 <==> Combine(dir2, InfoFileName) in fs2;
    SetsBytesSameContents(fs1, dir1, fs2, dir2, sets);
  }

  /** The same folders also receive the same beatmap texts. */
  lemma FillJsonIgnoresFolder(fs1: FileSystem, dir1: string, fs2: FileSystem, dir2: string,
                              sets: seq<DifficultyBeatmapSet>)
    requires SameContents(fs1, dir1, fs2, dir2)
    ensures FillJson(fs1, dir1, sets) == FillJson(fs2, dir2, sets)
  {
    forall i, j | 0 <= i < |sets| && 0 <= j < |sets[i].difficultyBeatmaps|
      ensures FillBeatmap(fs1, dir1, sets[i].difficultyBeatmaps[j]) == FillBeatmap(fs2, dir2, sets[i].difficultyBeatmaps[j])
    {
      var name := sets[i].difficultyBeatmaps[j].beatmapFilename;
      assert Combine(dir1, name) in fs1 <==> Combine(dir2, name) in fs2;
    }
    assert forall i :: 0 <= i < |sets| ==>
      FillBeatmaps(fs1, dir1, sets[i].difficultyBeatmaps) == FillBeatmaps(fs2, dir2, sets[i].difficultyBeatmaps);
  }

  /** What `GetLevelData` writes: for each beatmap whose file exists its
      text becomes `jsonData`; every other field, and every beatmap whose
      file is missing, is left as it was. */
  lemma FillJsonEffect(fs: FileSystem, dir: string, sets: seq<DifficultyBeatmapSet>, i: nat, j: nat)
    requires i < |sets| && j < |sets[i].difficultyBeatmaps|
    ensures |FillJson(fs, dir, sets)| == |sets|
    ensures FillJson(fs, dir, sets)[i].beatmapCharacteristicName == sets[i].beatmapCharacteristicName
    ensures |FillJson(fs, dir, sets)[i].difficultyBeatmaps| == |sets[i].difficultyBeatmaps|
    ensures var b, b' := sets[i].difficultyBeatmaps[j], FillJson(fs, dir, sets)[i].difficultyBeatmaps[j];
      && b'.(jsonData := b.jsonData) == b
      && b'.jsonData == (if Combine(dir, b.beatmapFilename) in fs
                         then Some(fs[Combine(dir, b.beatmapFilename)].text) else b.jsonData)
  {
  }

  /** Filling is idempotent: a second `GetLevelData` writes the same texts again. */
  lemma FillJsonIdempotent(fs: FileSystem, dir: string, sets: seq<DifficultyBeatmapSet>)
    ensures FillJson(fs, dir, FillJson(fs, dir, sets)) == FillJson(fs, dir, sets)
  {
    var once := FillJson(fs, dir, sets);
    forall i | 0 <= i < |sets|
      ensures FillBeatmaps(fs, dir, once[i].difficultyBeatmaps) == once[i].difficultyBeatmaps
    {
    }
  }

  lemma {:induction false} BeatmapsBytesIgnoreJson(fs: FileSystem, dir: string, bs: seq<DifficultyBeatmap>)
    ensures BeatmapsBytes(fs, dir, FillBeatmaps(fs, dir, bs)) == BeatmapsBytes(fs, dir, bs)
  {
    if bs != [] {
      var n := |bs| - 1;
      assert FillBeatmaps(fs, dir, bs)[..n] == FillBeatmaps(fs, dir, bs[..n]);
      BeatmapsBytesIgnoreJson(fs, dir, bs[..n]);
    }
  }

  lemma {:induction false} SetsBytesIgnoreJson(fs: FileSystem, dir: string, sets: seq<DifficultyBeatmapSet>)
    ensures SetsBytes(fs, dir, FillJson(fs, dir, sets)) == SetsBytes(fs, dir, sets)
  {
    if sets != [] {
      var n := |sets| - 1;
      assert FillJson(fs, dir, sets)[..n] == FillJson(fs, dir, sets[..n]);
      SetsBytesIgnoreJson(fs, dir, sets[..n]);
      BeatmapsBytesIgnoreJson(fs, dir, sets[n].difficultyBeatmaps);
    }
  }

  /** The identity does not read `jsonData`, so computing it again after a
      first `GetLevelData` (as `CustomLevelSO.Init` does) gives the same identity. */
  lemma LevelIdStable(sha1: seq<byte> -> seq<byte>, fs: FileSystem, dir: string, sets: seq<DifficultyBeatmapSet>)
    requires Combine(dir, InfoFileName) in fs
    ensures LevelId(sha1, fs, dir, FillJson(fs, dir, sets)) == LevelId(sha1, fs, dir, sets)
  {
    SetsBytesIgnoreJson(fs, dir, sets);
  }

  /** Reference form of the hash input: the declared beatmap paths, sets
      first and then beatmaps, in order; the bytes of those that exist, concatenated. */
  function DeclaredPaths(dir: string, sets: seq<DifficultyBeatmapSet>): seq<string>
  {
    if sets == [] then []
    else DeclaredPaths(dir, sets[..|sets| - 1]) +
         seq(|sets[|sets| - 1].difficultyBeatmaps|, j requires 0 <= j < |sets[|sets| - 1].difficultyBeatmaps| =>
           BeatmapPath(dir, sets[|sets| - 1].difficultyBeatmaps[j]))
  }

  function ExistingBytes(fs: FileSystem, paths: seq<string>): seq<byte>
  {
    if paths == [] then []
    else ExistingBytes(fs, paths[..|paths| - 1]) +
         (if paths[|paths| - 1] in fs then fs[paths[|paths| - 1]].bytes else [])
  }

  lemma {:induction false} ExistingBytesAppend(fs: FileSystem, a: seq<string>, b: seq<string>)
    ensures ExistingBytes(fs, a + b) == ExistingBytes(fs, a) + ExistingBytes(fs, b)
  {
    if b != [] {
      var n := |b| - 1;
      assert (a + b)[..|a + b| - 1] == a + b[..n];
      ExistingBytesAppend(fs, a, b[..n]);
    } else {
      assert a + b == a;
    }
  }

  lemma {:induction false} BeatmapsBytesAsPaths(fs: FileSystem, dir: string, bs: seq<DifficultyBeatmap>)
    ensures BeatmapsBytes(fs, dir, bs) ==
            ExistingBytes(fs, seq(|bs|, j requires 0 <= j < |bs| => BeatmapPath(dir, bs[j])))
  {
    if bs != [] {
      var n := |bs| - 1;
      BeatmapsBytesAsPaths(fs, dir, bs[..n]);
      var ps := seq(|bs|, j requires 0 <= j < |bs| => BeatmapPath(dir, bs[j]));
      assert ps[..n] == seq(n, j requires 0 <= j < n => BeatmapPath(dir, bs[..n][j]));
    }
  }

  /** The hash input is the manifest's bytes followed by the bytes of each
      existing beatmap file, visiting sets and then beatmaps in declared order. */
  lemma {:induction false} HashInputInDeclaredOrder(fs: FileSystem, dir: string, sets: seq<DifficultyBeatmapSet>)
    requires Combine(dir, InfoFileName) in fs
    ensures HashInput(fs, dir, sets) == fs[Combine(dir, InfoFileName)].bytes + ExistingBytes(fs, DeclaredPaths(dir, sets))
  {
    SetsBytesAsPaths(fs, dir, sets);
  }

  lemma {:induction false} SetsBytesAsPaths(fs: FileSystem, dir: string, sets: seq<DifficultyBeatmapSet>)
    ensures SetsBytes(fs, dir, sets) == ExistingBytes(fs, DeclaredPaths(dir, sets))
  {
    if sets != [] {
      var n := |sets| - 1;
      var bs := sets[n].difficultyBeatmaps;
      var ps := seq(|bs|, j requires 0 <= j < |bs| => BeatmapPath(dir, bs[j]));
      SetsBytesAsPaths(fs, dir, sets[..n]);
      BeatmapsBytesAsPaths(fs, dir, bs);
      assert DeclaredPaths(dir, sets) == DeclaredPaths(dir, sets[..n]) + ps;
      assert SetsBytes(fs, dir, sets) == SetsBytes(fs, dir, sets[..n]) + BeatmapsBytes(fs, dir, bs);
      ExistingBytesAppend(fs, DeclaredPaths(dir, sets[..n]), ps);
    }
  }
}
