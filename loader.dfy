/** `Loader`: the reload state machine. A reload strips the published custom
    levels from the four gameplay-mode lists, a background pass scans the
    song folders and queues one work item per new level, the main thread
    turns each item into levels with `LoadSong`, and a completion step
    merges, sorts and publishes them. A scene change cancels a pass.

    The background thread and the main-thread dispatcher are modelled as a
    queue: a reload runs the whole scan at once and appends its items and
    then its completion item; `DispatchOne` runs the item at the head. */
module LevelLoader {
  import opened Host
  import opened LevelInfo
  import opened CustomLevel
  import opened Ordering
  import opened Pools
  import opened Collections
  import opened Assembly
  import opened Scan

  const MenuSceneName: string := "Menu"

  /** `_emptyAudioClip`: the silent clip a level holds until its song is loaded. */
  const EmptyAudioClip: AudioClip := AudioClip(0)

  /** `loadingProgress`, kept as the fraction it is computed from. */
  datatype Progress = Progress(numerator: nat, denominator: nat)

  /** What the loader reads from the outside world: the files, the digest,
      the manifest parser, the listing of the custom-levels root (`None`
      when it throws), the scene infos the game has loaded, and the image
      decoder. */
  datatype Env = Env(
    fs: FileSystem,
    sha1: seq<byte> -> seq<byte>,
    parse: string -> Option<Manifest>,
    songFolders: Option<seq<SongFolder>>,
    resources: seq<SceneInfo>,
    decodeImage: seq<byte> -> Option<Sprite>)

  /** A delegate waiting in the main-thread queue: loading one level of a
      pass, or that pass's completion callback. */
  datatype WorkItem =
    | LoadItem(pass: nat, info: CustomLevelInfo, index: nat, total: nat)
    | Finish(pass: nat)

  /** The dirs a pass visits. */
  function Visited(env: Env): seq<(string, nat)>
  {
    if env.songFolders.None? then [] else Listed(env.songFolders.value).candidates
  }

  /** The number the progress of a pass is divided by: the number of song folders. */
  function FolderCount(env: Env): nat
  {
    if env.songFolders.None? then 0 else |env.songFolders.value|
  }

  /** The mode lists a level of characteristic `c` is published to. */
  predicate Goes(c: Characteristic, m: GameplayMode)
  {
    match c
    case Standard => m == SoloStandard || m == PartyStandard
    case NoArrows => m == SoloNoArrows
    case OneSaber => m == SoloOneSaber
  }

  /** The custom levels of `levels` that mode `m` lists, in order. */
  function Dist(levels: seq<CustomLevelSO>, m: GameplayMode): seq<Level>
    reads levels
  {
    if levels == [] then []
    else (if Goes(levels[0].characteristic, m) then [Custom(levels[0])] else []) + Dist(levels[1..], m)
  }

  lemma {:induction false} DistAppend(a: seq<CustomLevelSO>, b: seq<CustomLevelSO>, m: GameplayMode)
    ensures Dist(a + b, m) == Dist(a, m) + Dist(b, m)
  {
    if a == [] {
      assert a + b == b;
    } else {
      assert (a + b)[1..] == a[1..] + b;
      DistAppend(a[1..], b, m);
    }
  }

  /** Mode `m` lists exactly the levels whose characteristic goes to it. */
  lemma {:induction false} DistMembership(levels: seq<CustomLevelSO>, m: GameplayMode, x: CustomLevelSO)
    ensures Custom(x) in Dist(levels, m) <==> x in levels && Goes(x.characteristic, m)
  {
    if levels != [] {
      DistMembership(levels[1..], m, x);
      assert levels == [levels[0]] + levels[1..];
    }
  }

  /** The built-in levels of a mode, as list entries. */
  function Lift(bs: seq<BuiltInLevel>): (r: seq<Level>)
    ensures |r| == |bs| && forall k :: 0 <= k < |bs| ==> r[k] == BuiltIn(bs[k])
  {
    seq(|bs|, k requires 0 <= k < |bs| => BuiltIn(bs[k]))
  }

  /** `levelsList.Remove` of the first of the levels still listed after
      the game's own: what is listed after it stays, in order. */
  lemma RemoveHead(levels: seq<CustomLevelSO>, bs: seq<BuiltInLevel>, m: GameplayMode, listed: bool)
    requires levels != []
    ensures RemoveFirst(Lift(bs) + (if listed then Dist(levels, m) else []), Custom(levels[0]))
         == Lift(bs) + (if listed then Dist(levels[1..], m) else [])
  {
    var x := levels[0];
    var tail := Dist(levels[1..], m);
    assert Custom(x) !in Lift(bs);
    if !listed {
      RemoveFirstAfter(Lift(bs), [], Custom(x));
    } else if Goes(x.characteristic, m) {
      assert Dist(levels, m) == [] + [Custom(x)] + tail;
      RemoveFirstSplit([], Custom(x), tail);
      RemoveFirstAfter(Lift(bs), Dist(levels, m), Custom(x));
    } else {
      assert Dist(levels, m) == tail;
      DistMembership(levels[1..], m, x);
      RemoveFirstAfter(Lift(bs), Dist(levels, m), Custom(x));
    }
  }

  /** What list `m` holds while the removal loop is at each level: before
      level `k` is removed it is the game's levels followed, if the levels
      were published, by those of `levels[k..]` going to `m`; removing
      level `k` leads from each entry to the next, and the last is the
      game's levels alone. */
  lemma RemovalSteps(levels: seq<CustomLevelSO>, bs: seq<BuiltInLevel>, m: GameplayMode, listed: bool)
    returns (lists: seq<seq<Level>>)
    ensures |lists| == |levels| + 1
    ensures lists[0] == Lift(bs) + (if listed then Dist(levels, m) else [])
    ensures lists[|levels|] == Lift(bs)
    ensures forall k :: 0 <= k < |levels| ==> RemoveFirst(lists[k], Custom(levels[k])) == lists[k + 1]
  {
    lists := seq(|levels| + 1, k requires 0 <= k <= |levels| reads levels =>
      Lift(bs) + (if listed then Dist(levels[k..], m) else []));
    assert levels[0..] == levels;
    forall k | 0 <= k < |levels|
      ensures RemoveFirst(lists[k], Custom(levels[k])) == lists[k + 1]
    {
      RemoveHead(levels[k..], bs, m, listed);
      assert levels[k..][1..] == levels[k + 1..];
    }
  }

  /** The levels paired with the key `OrderBy` sorts them by. */
  function Keyed(levels: seq<CustomLevelSO>): (r: seq<(string, CustomLevelSO)>)
    reads levels
    ensures |r| == |levels| && forall k :: 0 <= k < |levels| ==> r[k] == (levels[k].songName, levels[k])
  {
    seq(|levels|, k requires 0 <= k < |levels| reads levels => (levels[k].songName, levels[k]))
  }

  function Values(ps: seq<(string, CustomLevelSO)>): (r: seq<CustomLevelSO>)
    ensures |r| == |ps| && forall k :: 0 <= k < |ps| ==> r[k] == ps[k].1
  {
    seq(|ps|, k requires 0 <= k < |ps| => ps[k].1)
  }

  /** The built beatmaps `bs` are, in order, the given shapes, each owned by `owner`. */
  ghost predicate Matches(bs: seq<Beatmap>, shapes: seq<BeatmapShape>, owner: CustomLevelSO)
    reads set k | 0 <= k < |bs| :: bs[k].beatmapData
  {
    && |bs| == |shapes|
    && forall k :: 0 <= k < |bs| ==>
      && bs[k].level == owner
      && bs[k].difficulty == shapes[k].difficulty
      && bs[k].difficultyRank == shapes[k].difficultyRank
      && bs[k].noteJumpMovementSpeed == shapes[k].noteJumpMovementSpeed
      && bs[k].beatmapData.jsonData == shapes[k].jsonData
  }

  lemma MatchesAppend(a: seq<Beatmap>, sa: seq<BeatmapShape>, b: seq<Beatmap>, sb: seq<BeatmapShape>, owner: CustomLevelSO)
    requires Matches(a, sa, owner) && Matches(b, sb, owner)
    ensures Matches(a + b, sa + sb, owner)
  {
    var ab, s := a + b, sa + sb;
    forall k | 0 <= k < |ab|
      ensures ab[k].level == owner && ab[k].difficulty == s[k].difficulty
      ensures ab[k].difficultyRank == s[k].difficultyRank
      ensures ab[k].noteJumpMovementSpeed == s[k].noteJumpMovementSpeed
      ensures ab[k].beatmapData.jsonData == s[k].jsonData
    {
      if k >= |a| {
        assert ab[k] == b[k - |a|] && s[k] == sb[k - |a|];
      }
    }
  }

  /** One characteristic's entry of `LoadSong`'s two dictionaries: its
      level and its beatmap list. */
  datatype Group = Group(characteristic: Characteristic, level: CustomLevelSO, beatmaps: seq<Beatmap>)

  /** The position of `c`'s group, if there is one. */
  function GroupIndex(groups: seq<Group>, c: Characteristic): (k: Option<nat>)
    ensures k.Some? ==> k.value < |groups| && groups[k.value].characteristic == c
    ensures k.None? ==> forall i :: 0 <= i < |groups| ==> groups[i].characteristic != c
  {
    if groups == [] then None
    else if groups[|groups| - 1].characteristic == c then Some(|groups| - 1)
    else GroupIndex(groups[..|groups| - 1], c)
  }

  /** The levels of `LoadSong`'s groups, in order of creation. */
  function Levels(groups: seq<Group>): (r: seq<CustomLevelSO>)
    ensures |r| == |groups| && forall k :: 0 <= k < |groups| ==> r[k] == groups[k].level
  {
    seq(|groups|, k requires 0 <= k < |groups| => groups[k].level)
  }

  /** The characteristics of `LoadSong`'s groups, in order of creation. */
  function GroupChars(groups: seq<Group>): (r: seq<Characteristic>)
    ensures |r| == |groups| && forall k :: 0 <= k < |groups| ==> r[k] == groups[k].characteristic
  {
    seq(|groups|, k requires 0 <= k < |groups| => groups[k].characteristic)
  }

  /** The levels the groups hold. */
  function LevelSet(groups: seq<Group>): set<CustomLevelSO>
  {
    set k | 0 <= k < |groups| :: groups[k].level
  }

  /** The beatmap-data instances the groups hold. */
  function DataOf(groups: seq<Group>): set<CustomBeatmapData>
  {
    set k, j | 0 <= k < |groups| && 0 <= j < |groups[k].beatmaps| :: groups[k].beatmaps[j].beatmapData
  }

  /** A new group appended at the end. */
  lemma GroupsSnoc(groups: seq<Group>, g: Group)
    ensures Levels(groups + [g]) == Levels(groups) + [g.level]
    ensures LevelSet(groups + [g]) == LevelSet(groups) + {g.level}
    ensures GroupChars(groups + [g]) == GroupChars(groups) + [g.characteristic]
    ensures g.beatmaps == [] ==> DataOf(groups + [g]) == DataOf(groups)
  {
    forall x | x in LevelSet(groups) ensures x in LevelSet(groups + [g]) {
      var k :| 0 <= k < |groups| && groups[k].level == x;
      assert (groups + [g])[k] == groups[k];
    }
    assert (groups + [g])[|groups|] == g;
    if g.beatmaps == [] {
      forall x | x in DataOf(groups) ensures x in DataOf(groups + [g]) {
        var k, j :| 0 <= k < |groups| && 0 <= j < |groups[k].beatmaps| && groups[k].beatmaps[j].beatmapData == x;
        assert (groups + [g])[k] == groups[k];
      }
    }
  }

  /** Every beatmap-data instance the groups hold is among `used`. */
  ghost predicate DataIn(groups: seq<Group>, used: seq<CustomBeatmapData>)
  {
    forall k, j :: 0 <= k < |groups| && 0 <= j < |groups[k].beatmaps| ==> groups[k].beatmaps[j].beatmapData in used
  }

  /** The cover file `LoadCoverImage` reads for the levels of `info`. */
  function CoverPath(info: CustomLevelInfo): string
  {
    Combine(info.levelPath, info.coverImageFilename)
  }

  /** The cover bookkeeping of `LoadSong`'s second loop: the sprite every
      handed-back level gets, the cache before the loop, and the cache once a
      level has loaded its cover. */
  datatype Covering = Covering(found: Option<Sprite>, cached: map<string, Sprite>, after: map<string, Sprite>)

  /** One step of `Emit`'s loop as the two-state lemmas about it see it:
      the groups and what they were built from, the cover lookup, the
      group's index and what had been handed back before it. */
  datatype EmitFrame = EmitFrame(groups: seq<Group>, env: Env, info: CustomLevelInfo, sets: seq<DifficultyBeatmapSet>, stamp: Stamp,
                                 cover: Covering, k: nat, out: seq<CustomLevelSO>, at: seq<nat>, ne: seq<Characteristic>)

  /** What `Init` gives every level of one song: the content id of the
      manifest and the scene info of its environment. */
  datatype Stamp = Stamp(levelId: string, scene: SceneInfo)

  /** The scene cache before the first `Init` of a song and after it. */
  datatype SceneCaching = SceneCaching(before: seq<SceneInfo>, after: seq<SceneInfo>)

  /** `scene` is what `GetSceneInfo` answers for the manifest's environment
      on the cache `scenes.before`, which then becomes `scenes.after`. */
  ghost predicate Resolved(info: CustomLevelInfo, env: Env, scenes: SceneCaching, scene: SceneInfo)
  {
    && DefaultFindable(scenes.before, env.resources)
    && scene == ResolveScene(scenes.before, env.resources, info.environmentName)
    && scenes.after == SceneCacheAfter(scenes.before, env.resources, info.environmentName)
  }

  /** Whether or not a level of the song has been drawn yet, the next `Init`
      answers the song's scene and leaves the cache as the first one did. */
  lemma SceneSettled(info: CustomLevelInfo, env: Env, scenes: SceneCaching, scene: SceneInfo, current: seq<SceneInfo>)
    requires Resolved(info, env, scenes, scene) && (current == scenes.before || current == scenes.after)
    ensures DefaultFindable(current, env.resources)
    ensures ResolveScene(current, env.resources, info.environmentName) == scene
    ensures SceneCacheAfter(current, env.resources, info.environmentName) == scenes.after
  {
    SceneCacheSettles(scenes.before, env.resources, info.environmentName);
  }

  /** The fields `Init` sets on a level of `info`: the id and environment
      scene of `stamp`, and the song's fields copied from the manifest. */
  function InitOf(info: CustomLevelInfo, stamp: Stamp): (string, string, string, string, Float, Float, Float, Float, Float, Float, Option<SceneInfo>)
  {
    (stamp.levelId, info.songName, info.songSubName, info.songAuthorName + " [" + info.levelAuthorName + "]",
     info.beatsPerMinute, info.songTimeOffset, info.shuffle, info.shufflePeriod, info.previewStartTime, info.previewDuration,
     Some(stamp.scene))
  }

  /** A level drawn for `info` and characteristic `c`: initialised from the
      manifest, with the id and environment scene of `stamp`, holding the
      silent clip. */
  ghost predicate Drawn(x: CustomLevelSO, info: CustomLevelInfo, c: Characteristic, stamp: Stamp)
    reads x
  {
    && x.levelInfo == info && x.characteristic == c && x.audioClip == Some(EmptyAudioClip)
    && x.InitFields() == InitOf(info, stamp)
  }

  /** The groups after the sets of `sets`: each level drawn for its
      characteristic, its beatmaps the kept entries of the sets filed under it. */
  ghost predicate Built(groups: seq<Group>, info: CustomLevelInfo, sets: seq<DifficultyBeatmapSet>, stamp: Stamp)
    reads LevelSet(groups), DataOf(groups)
  {
    forall k :: 0 <= k < |groups| ==>
      && Drawn(groups[k].level, info, groups[k].characteristic, stamp)
      && Matches(groups[k].beatmaps, Expected(sets, groups[k].characteristic), groups[k].level)
  }

  /** Beatmap data held by the groups stays among the drawn instances as more are drawn. */
  lemma DataInGrown(groups: seq<Group>, used: seq<CustomBeatmapData>, more: seq<CustomBeatmapData>)
    requires DataIn(groups, used) && used <= more
    ensures DataIn(groups, more)
  {
    forall k, j | 0 <= k < |groups| && 0 <= j < |groups[k].beatmaps|
      ensures groups[k].beatmaps[j].beatmapData in more
    {
      var t :| 0 <= t < |used| && used[t] == groups[k].beatmaps[j].beatmapData;
      assert more[t] == used[t];
    }
  }

  /** A group with no beatmaps yet holds no beatmap data. */
  lemma DataInOpened(groups: seq<Group>, g: Group, used: seq<CustomBeatmapData>)
    requires DataIn(groups, used) && g.beatmaps == []
    ensures DataIn(groups + [g], used)
  {
    forall k, j | 0 <= k < |groups + [g]| && 0 <= j < |(groups + [g])[k].beatmaps|
      ensures (groups + [g])[k].beatmaps[j].beatmapData in used
    {
      assert (groups + [g])[k] == groups[k];
    }
  }

  /** Adding drawn beatmaps to a group keeps every held instance among the drawn ones. */
  lemma DataInAdded(groups: seq<Group>, k: nat, added: seq<Beatmap>, used: seq<CustomBeatmapData>)
    requires k < |groups| && DataIn(groups, used)
    requires forall j :: 0 <= j < |added| ==> added[j].beatmapData in used
    ensures DataIn(groups[k := groups[k].(beatmaps := groups[k].beatmaps + added)], used)
  {
  }

  /** A set whose characteristic name does not parse changes no group. */
  lemma BuiltSkip(groups: seq<Group>, info: CustomLevelInfo, sets: seq<DifficultyBeatmapSet>, i: nat, stamp: Stamp)
    requires i < |sets| && SetCharacteristic(sets[i]).None?
    requires Built(groups, info, sets[..i], stamp)
    ensures Built(groups, info, sets[..i + 1], stamp)
  {
    assert sets[..i + 1][..i] == sets[..i];
  }

  /** The groups after one more set: their characteristics are `chars`,
      they are built for the sets before it, and their levels and beatmap
      data are the ones drawn from the pools. */
  ghost predicate Grown(next: seq<Group>, info: CustomLevelInfo, sets: seq<DifficultyBeatmapSet>, chars: seq<Characteristic>,
                        stamp: Stamp, used0: seq<CustomLevelSO>, used: seq<CustomLevelSO>, data: seq<CustomBeatmapData>)
    reads LevelSet(next), DataOf(next)
  {
    && GroupChars(next) == chars && Built(next, info, sets, stamp)
    && used == used0 + Levels(next) && DataIn(next, data)
  }

  /** Appending a newly drawn, still empty group keeps the groups built
      and their levels and beatmap data accounted for. */
  lemma Opened(groups: seq<Group>, g: Group, info: CustomLevelInfo, sets: seq<DifficultyBeatmapSet>, stamp: Stamp,
               used0: seq<CustomLevelSO>, used: seq<CustomLevelSO>, data: seq<CustomBeatmapData>)
    requires Built(groups, info, sets, stamp) && DataIn(groups, data)
    requires g.beatmaps == [] && Drawn(g.level, info, g.characteristic, stamp) && g.characteristic !in Chars(sets)
    requires used == used0 + Levels(groups) + [g.level]
    ensures Grown(groups + [g], info, sets, GroupChars(groups) + [g.characteristic], stamp, used0, used, data)
    ensures LevelSet(groups + [g]) == LevelSet(groups) + {g.level}
  {
    BuiltOpened(groups, g, info, sets, stamp);
    GroupsSnoc(groups, g);
    DataInOpened(groups, g, data);
    AppendAssoc(used0, Levels(groups), [g.level]);
  }

  /** A level drawn for the first set of its characteristic opens a new
      group: its id is the content id whether the texts were filled in
      before the draw or by it. */
  lemma DrawnOpened(groups: seq<Group>, g: Group, info: CustomLevelInfo, env: Env,
                    sets0: seq<DifficultyBeatmapSet>, sets1: seq<DifficultyBeatmapSet>, i: nat, stamp: Stamp,
                    used0: seq<CustomLevelSO>, used: seq<CustomLevelSO>, data: seq<CustomBeatmapData>)
    requires Combine(info.levelPath, InfoFileName) in env.fs && stamp.levelId == LevelId(env.sha1, env.fs, info.levelPath, sets0)
    requires sets1 == sets0 || sets1 == FillJson(env.fs, info.levelPath, sets0)
    requires i < |sets0| && g.beatmaps == [] && g.characteristic !in Chars(sets0[..i])
    requires Built(groups, info, FillJson(env.fs, info.levelPath, sets0)[..i], stamp) && DataIn(groups, data)
    requires Drawn(g.level, info, g.characteristic, Stamp(LevelId(env.sha1, env.fs, info.levelPath, sets1), stamp.scene))
    requires used == used0 + Levels(groups) + [g.level]
    ensures Grown(groups + [g], info, FillJson(env.fs, info.levelPath, sets0)[..i], GroupChars(groups) + [g.characteristic],
                  stamp, used0, used, data)
    ensures LevelSet(groups + [g]) == LevelSet(groups) + {g.level}
    ensures FillJson(env.fs, info.levelPath, sets1) == FillJson(env.fs, info.levelPath, sets0)
  {
    FillJsonIdempotent(env.fs, info.levelPath, sets0);
    LevelIdStable(env.sha1, env.fs, info.levelPath, sets0);
    StepChars(env.fs, info.levelPath, sets0, i);
    Opened(groups, g, info, FillJson(env.fs, info.levelPath, sets0)[..i], stamp, used0, used, data);
  }

  /** A group that starts with no beatmaps is built after sets that never name its characteristic. */
  lemma BuiltOpened(groups: seq<Group>, g: Group, info: CustomLevelInfo, sets: seq<DifficultyBeatmapSet>, stamp: Stamp)
    requires Built(groups, info, sets, stamp)
    requires g.beatmaps == [] && Drawn(g.level, info, g.characteristic, stamp) && g.characteristic !in Chars(sets)
    ensures Built(groups + [g], info, sets, stamp)
  {
    if Expected(sets, g.characteristic) != [] {
      ExpectedNeedsSet(sets, g.characteristic);
    }
    assert Levels(groups + [g]) == Levels(groups) + [g.level];
    forall k | 0 <= k < |groups + [g]|
      ensures Drawn((groups + [g])[k].level, info, (groups + [g])[k].characteristic, stamp)
      ensures Matches((groups + [g])[k].beatmaps, Expected(sets, (groups + [g])[k].characteristic), (groups + [g])[k].level)
    {
      if k < |groups| {
        assert (groups + [g])[k] == groups[k];
      }
    }
  }

  /** A set filed under group `k`'s characteristic extends that group's beatmaps and no other's. */
  lemma BuiltExtended(groups: seq<Group>, k: nat, added: seq<Beatmap>, info: CustomLevelInfo,
                      sets: seq<DifficultyBeatmapSet>, i: nat, stamp: Stamp)
    requires i < |sets| && k < |groups| && Distinct(GroupChars(groups))
    requires SetCharacteristic(sets[i]) == Some(groups[k].characteristic)
    requires Built(groups, info, sets[..i], stamp)
    requires Matches(added, Kept(sets[i].difficultyBeatmaps), groups[k].level)
    ensures Built(groups[k := groups[k].(beatmaps := groups[k].beatmaps + added)], info, sets[..i + 1], stamp)
  {
    assert sets[..i + 1][..i] == sets[..i];
    var next := groups[k := groups[k].(beatmaps := groups[k].beatmaps + added)];
    assert Levels(next) == Levels(groups);
    MatchesAppend(groups[k].beatmaps, Expected(sets[..i], groups[k].characteristic), added,
                  Kept(sets[i].difficultyBeatmaps), groups[k].level);
    forall r | 0 <= r < |next|
      ensures Drawn(next[r].level, info, next[r].characteristic, stamp)
      ensures Matches(next[r].beatmaps, Expected(sets[..i + 1], next[r].characteristic), next[r].level)
    {
      if r != k {
        assert GroupChars(groups)[r] != GroupChars(groups)[k];
      }
    }
  }

  /** What one more set adds to the characteristics; refilling the texts
      changes no characteristic. */
  lemma StepChars(fs: FileSystem, dir: string, sets: seq<DifficultyBeatmapSet>, i: nat)
    requires i < |sets|
    ensures var filled := FillJson(fs, dir, sets);
      && SetCharacteristic(filled[i]) == SetCharacteristic(sets[i])
      && Chars(filled[..i]) == Chars(sets[..i])
      && Chars(sets[..i + 1]) == (var c := SetCharacteristic(sets[i]);
           if c.Some? && c.value !in Chars(sets[..i]) then Chars(sets[..i]) + [c.value] else Chars(sets[..i]))
  {
    var filled := FillJson(fs, dir, sets);
    assert sets[..i + 1][..i] == sets[..i];
    assert filled[..i] == FillJson(fs, dir, sets[..i]);
    CharsIgnoreTexts(fs, dir, sets[..i]);
  }

  /** What one more set adds to the beatmap-data draws. */
  lemma StepDraws(sets: seq<DifficultyBeatmapSet>, i: nat)
    requires i < |sets|
    ensures DataDraws(sets[..i + 1]) == DataDraws(sets[..i]) +
      (if SetCharacteristic(sets[i]).Some? then JsonCount(sets[i].difficultyBeatmaps) else 0)
  {
    assert sets[..i + 1][..i] == sets[..i];
  }

  /** A level `LoadSong` hands back for `info`: drawn for characteristic
      `c`, its beatmaps the kept entries of the sets filed under `c`. */
  ghost predicate Loaded(x: CustomLevelSO, info: CustomLevelInfo, c: Characteristic, sets: seq<DifficultyBeatmapSet>, stamp: Stamp)
    reads x, set j | 0 <= j < |x.difficultyBeatmaps| :: x.difficultyBeatmaps[j].beatmapData
  {
    Drawn(x, info, c, stamp) && Matches(x.difficultyBeatmaps, Expected(sets, c), x)
  }

  /** The levels loading one folder hands back: one per characteristic of
      the filled sets that has beatmaps, in that order, each `Loaded` with
      the song's stamp. */
  ghost predicate SongLoaded(levels: seq<CustomLevelSO>, info: CustomLevelInfo, filled: seq<DifficultyBeatmapSet>, stamp: Stamp)
    reads set x | x in levels, set x, j | x in levels && 0 <= j < |x.difficultyBeatmaps| :: x.difficultyBeatmaps[j].beatmapData
  {
    && |levels| == |Emitted(filled)|
    && forall k :: 0 <= k < |levels| ==> Loaded(levels[k], info, Emitted(filled)[k], filled, stamp)
  }

  lemma NonEmptyStep(cs: seq<Characteristic>, sets: seq<DifficultyBeatmapSet>, k: nat)
    requires k < |cs|
    ensures NonEmpty(cs[..k + 1], sets) == NonEmpty(cs[..k], sets) + (if Expected(sets, cs[k]) != [] then [cs[k]] else [])
  {
    assert cs[..k + 1][..k] == cs[..k];
  }

  /** Sets with no known characteristic draw no beatmap data. */
  lemma {:induction false} NoCharsNoDraws(sets: seq<DifficultyBeatmapSet>)
    requires Chars(sets) == []
    ensures DataDraws(sets) == 0
  {
    if sets != [] {
      NoCharsNoDraws(sets[..|sets| - 1]);
    }
  }

  /** A characteristic seen in a prefix is seen in the whole. */
  lemma CharsGrow(sets: seq<DifficultyBeatmapSet>, i: nat)
    requires i <= |sets| && Chars(sets[..i]) != []
    ensures Chars(sets) != []
  {
    var c := Chars(sets[..i])[0];
    CharsMembership(sets[..i], c);
    var j :| 0 <= j < i && SetCharacteristic(sets[..i][j]) == Some(c);
    assert sets[j] == sets[..i][j];
    CharsMembership(sets, c);
  }

  /** The dispatcher queue up to pass `p`: no entry belongs to a later
      pass, and completion callbacks come in pass order. */
  ghost predicate QueueOrdered(queue: seq<WorkItem>, p: nat)
  {
    && (forall k :: 0 <= k < |queue| ==> queue[k].pass <= p)
    && (forall i, j :: 0 <= i < j < |queue| && queue[i].Finish? && queue[j].Finish? ==> queue[i].pass < queue[j].pass)
  }

  /** A new pass appends its items and then its completion callback. */
  lemma QueueOrderedExtend(queue: seq<WorkItem>, items: seq<WorkItem>, p: nat)
    requires QueueOrdered(queue, p)
    requires forall k :: 0 <= k < |items| ==> items[k].LoadItem? && items[k].pass == p + 1
    ensures QueueOrdered(queue + items + [Finish(p + 1)], p + 1)
    ensures Finish(p + 1) !in queue
  {
  }

  /** Running the oldest entry leaves the rest in order, and a completion
      callback is not queued twice. */
  lemma QueueOrderedPop(queue: seq<WorkItem>, p: nat)
    requires queue != [] && QueueOrdered(queue, p)
    ensures QueueOrdered(queue[1..], p)
    ensures queue[0].Finish? ==> queue[0] !in queue[1..]
  {
    if queue[0].Finish? {
      forall j | 0 <= j < |queue[1..]|
        ensures queue[1..][j] != queue[0]
      {
        assert queue[1..][j] == queue[j + 1];
      }
    }
  }

  /** Publishing one more level extends each mode's share by that level when the mode takes it. */
  lemma DistStep(levels: seq<CustomLevelSO>, i: nat, m: GameplayMode)
    requires i < |levels|
    ensures Dist(levels[..i + 1], m) == Dist(levels[..i], m) + (if Goes(levels[i].characteristic, m) then [Custom(levels[i])] else [])
  {
    assert levels[..i + 1] == levels[..i] + [levels[i]];
    DistAppend(levels[..i], [levels[i]], m);
  }

  /** A mode's list after one more level has been added to it. */
  lemma DistGrow(levels: seq<CustomLevelSO>, i: nat, bs: seq<BuiltInLevel>, m: GameplayMode)
    requires i < |levels|
    ensures (Lift(bs) + Dist(levels[..i], m)) + (if Goes(levels[i].characteristic, m) then [Custom(levels[i])] else [])
         == Lift(bs) + Dist(levels[..i + 1], m)
  {
    DistStep(levels, i, m);
    AppendAssoc(Lift(bs), Dist(levels[..i], m), if Goes(levels[i].characteristic, m) then [Custom(levels[i])] else []);
  }

  /** Pairs that each carry their level's song name are the keyed form of their levels. */
  lemma KeyedValues(ps: seq<(string, CustomLevelSO)>)
    requires forall k :: 0 <= k < |ps| ==> ps[k].0 == ps[k].1.songName
    ensures Keyed(Values(ps)) == ps
  {
  }

  /** Taking one element out of a sequence takes it out of its multiset. */
  lemma RemoveAtMultiset<T>(q: seq<T>, j: nat)
    requires j < |q|
    ensures multiset(q) == multiset(q[..j] + q[j + 1..]) + multiset{q[j]}
  {
    assert q == q[..j] + [q[j]] + q[j + 1..];
  }

  lemma MultisetCancel<T>(a: multiset<T>, b: multiset<T>, x: T)
    requires a + multiset{x} == b + multiset{x}
    ensures a == b
  {
    forall y ensures a[y] == b[y] {
      assert (a + multiset{x})[y] == (b + multiset{x})[y];
    }
  }

  lemma ValuesRemoveAt(q: seq<(string, CustomLevelSO)>, j: nat)
    requires j < |q|
    ensures Values(q[..j] + q[j + 1..]) == Values(q)[..j] + Values(q)[j + 1..]
  {
  }

  lemma ValuesTail(p: seq<(string, CustomLevelSO)>)
    requires 0 < |p|
    ensures Values(p) == [p[0].1] + Values(p[1..])
  {
  }

  /** Reordering keyed pairs reorders their levels alike. */
  lemma {:induction false} ValuesMultiset(p: seq<(string, CustomLevelSO)>, q: seq<(string, CustomLevelSO)>)
    requires multiset(p) == multiset(q)
    ensures multiset(Values(p)) == multiset(Values(q))
  {
    if p == [] {
      assert q == [];
      return;
    }
    assert p[0] in multiset(q);
    var j :| 0 <= j < |q| && q[j] == p[0];
    var q' := q[..j] + q[j + 1..];
    RemoveAtMultiset(q, j);
    RemoveAtMultiset(p, 0);
    assert p[1..] == p[..0] + p[1..];
    MultisetCancel(multiset(p[1..]), multiset(q'), p[0]);
    ValuesMultiset(p[1..], q');
    ValuesStep(p, q, j);
  }

  /** The step of `ValuesMultiset`: the first pair of `p` sits at `j` in `q`. */
  lemma ValuesStep(p: seq<(string, CustomLevelSO)>, q: seq<(string, CustomLevelSO)>, j: nat)
    requires 0 < |p| && j < |q| && q[j] == p[0]
    requires multiset(Values(p[1..])) == multiset(Values(q[..j] + q[j + 1..]))
    ensures multiset(Values(p)) == multiset(Values(q))
  {
    assert multiset(Values(q)) == multiset(Values(q[..j] + q[j + 1..])) + multiset{p[0].1} by {
      ValuesRemoveAt(q, j);
      RemoveAtMultiset(Values(q), j);
    }
    assert multiset(Values(p)) == multiset(Values(p[1..])) + multiset{p[0].1} by {
      ValuesTail(p);
    }
  }

  /** `OrderBy(x => x.songName)`: the levels in song-name order, those
      with equal names in their input order. */
  function SortLevels(levels: seq<CustomLevelSO>): (r: seq<CustomLevelSO>)
    reads levels
    ensures Keyed(r) == SortByKey(Keyed(levels))
    ensures Sorted(Keyed(r)) && multiset(r) == multiset(levels)
  {
    var sorted := SortByKey(Keyed(levels));
    SortLevelsFacts(levels);
    Values(sorted)
  }

  lemma SortLevelsFacts(levels: seq<CustomLevelSO>)
    ensures Keyed(Values(SortByKey(Keyed(levels)))) == SortByKey(Keyed(levels))
    ensures Sorted(SortByKey(Keyed(levels)))
    ensures multiset(Values(SortByKey(Keyed(levels)))) == multiset(levels)
  {
    var sorted := SortByKey(Keyed(levels));
    SortByKeySortsAndPermutes(Keyed(levels));
    forall k | 0 <= k < |sorted|
      ensures sorted[k].0 == sorted[k].1.songName
    {
      assert sorted[k] in multiset(Keyed(levels));
    }
    KeyedValues(sorted);
    ValuesMultiset(sorted, Keyed(levels));
    assert Values(Keyed(levels)) == levels;
  }

  /** The work items a pass queues for the accepted dirs, in order, each
      holding a new manifest object read from its dir with the beatmap
      texts filled in from the files. */
  ghost predicate QueuedAs(items: seq<WorkItem>, acc: seq<Accepted>, p: nat, total: nat, fs: FileSystem)
    reads set k | 0 <= k < |items| && items[k].LoadItem? :: items[k].info
  {
    && |items| == |acc|
    && forall k :: 0 <= k < |items| ==>
      && items[k].LoadItem? && items[k].pass == p
      && items[k].index == acc[k].index && items[k].total == total
      && items[k].info.Describes(acc[k].manifest, acc[k].dir)
      && items[k].info.difficultyBeatmapSets ==
           FillJson(fs, acc[k].dir, DeserializedSets(acc[k].manifest.difficultyBeatmapSets))
  }

  lemma QueuedAsAppend(a: seq<WorkItem>, x: seq<Accepted>, b: seq<WorkItem>, y: seq<Accepted>, p: nat, total: nat, fs: FileSystem)
    requires QueuedAs(a, x, p, total, fs) && QueuedAs(b, y, p, total, fs)
    ensures QueuedAs(a + b, x + y, p, total, fs)
  {
    forall k | |a| <= k < |a + b|
      ensures (a + b)[k] == b[k - |a|] && (x + y)[k] == y[k - |a|]
    {
    }
  }

  /** The folders of the given levels: what a partial reload skips. */
  function KnownPaths(levels: seq<CustomLevelSO>): set<string>
    reads levels
  {
    set x | x in levels && x.levelInfo != null :: x.levelInfo.levelPath
  }

  /** A new list standing for the game's own level array of one mode. */
  method NewCollection(levels: seq<BuiltInLevel>) returns (c: CustomLevelCollectionSO)
    ensures fresh(c) && c.levelsList == Lift(levels) && c.levels.None?
  {
    var a := new Level[|levels|](k requires 0 <= k < |levels| => BuiltIn(levels[k]));
    c := new CustomLevelCollectionSO();
    c.Init(a);
  }

  /** `CreateCustomCollections`: one fresh list per mode holding the game's
      own levels of that mode, and a fresh table answering each mode from
      its list. */
  method CreateCustomCollections(gameLevels: GameplayMode -> seq<BuiltInLevel>)
    returns (ss: CustomLevelCollectionSO, os: CustomLevelCollectionSO, na: CustomLevelCollectionSO,
             ps: CustomLevelCollectionSO, table: CustomLevelCollectionsForGameplayModes)
    ensures fresh(ss) && fresh(os) && fresh(na) && fresh(ps) && fresh(table)
    ensures ss != os && ss != na && ss != ps && os != na && os != ps && na != ps
    ensures ss.levelsList == Lift(gameLevels(SoloStandard)) && os.levelsList == Lift(gameLevels(SoloOneSaber))
    ensures na.levelsList == Lift(gameLevels(SoloNoArrows)) && ps.levelsList == Lift(gameLevels(PartyStandard))
    ensures table.collections == [
      ModeEntry(SoloStandard, true, CustomCollection(ss)),
      ModeEntry(SoloOneSaber, true, CustomCollection(os)),
      ModeEntry(SoloNoArrows, true, CustomCollection(na)),
      ModeEntry(PartyStandard, true, CustomCollection(ps))]
  {
    ss := NewCollection(gameLevels(SoloStandard));
    os := NewCollection(gameLevels(SoloOneSaber));
    na := NewCollection(gameLevels(SoloNoArrows));
    ps := NewCollection(gameLevels(PartyStandard));
    table := new CustomLevelCollectionsForGameplayModes();
    table.SetCollections([
      ModeEntry(SoloStandard, true, CustomCollection(ss)),
      ModeEntry(SoloOneSaber, true, CustomCollection(os)),
      ModeEntry(SoloNoArrows, true, CustomCollection(na)),
      ModeEntry(PartyStandard, true, CustomCollection(ps))]);
  }

  /** `GetCustomLevelInfo`: reads and parses `info.dat` of `dir`; null when
      the file is missing or does not parse. */
  method GetCustomLevelInfo(env: Env, dir: string) returns (info: CustomLevelInfo?)
    ensures var path := Combine(dir, InfoFileName);
      if path in env.fs && env.parse(env.fs[path].text).Some? then
        var m := env.parse(env.fs[path].text).value;
        && info != null && fresh(info) && info.Describes(m, dir)
        && info.difficultyBeatmapSets == DeserializedSets(m.difficultyBeatmapSets)
      else info == null
  {
    var path := Combine(dir, InfoFileName);
    if path !in env.fs {
      return null;
    }
    match env.parse(env.fs[path].text) {
      case None => info := null;
      case Some(m) => info := new CustomLevelInfo(m, dir);
    }
  }

  class Loader {
    var isLoading: bool
    var isLoaded: bool
    var loadingProgress: Progress
    /** The published custom levels, sorted by song name after each pass. */
    var customLevels: seq<CustomLevelSO>
    var loadingCanceled: bool
    /** `_loadingTask != null`. */
    var hasTask: bool
    /** The main thread's dispatcher queue. */
    var queue: seq<WorkItem>
    /** How many passes have been started; items carry the pass that queued them. */
    var pass: nat
    /** The current pass's `levels` list: what its items have loaded so far. */
    var passLevels: seq<CustomLevelSO>

    /** `_levelCollectionsForGameplayModes`, one field per key. */
    const soloStandard: CustomLevelCollectionSO
    const soloOneSaber: CustomLevelCollectionSO
    const soloNoArrows: CustomLevelCollectionSO
    const partyStandard: CustomLevelCollectionSO
    /** `_customLevelCollectionsForGameplayModes`. */
    const modes: CustomLevelCollectionsForGameplayModes
    const levelPool: LevelPool
    const dataPool: BeatmapDataPool
    /** The scene, audio and image caches of `CustomLevelSO`. */
    const cache: MediaCache

    /** The game's own levels of each mode, copied into the lists at creation. */
    ghost const builtIns: GameplayMode -> seq<BuiltInLevel>
    /** Whether `customLevels` are in the lists. */
    ghost var published: bool

    function Collection(m: GameplayMode): CustomLevelCollectionSO
    {
      match m
      case SoloStandard => soloStandard
      case SoloOneSaber => soloOneSaber
      case SoloNoArrows => soloNoArrows
      case PartyStandard => partyStandard
    }

    ghost function Lists(): set<object>
    {
      {soloStandard, soloOneSaber, soloNoArrows, partyStandard}
    }

    /** The mode table handed to the menus. */
    function Table(): seq<ModeEntry>
    {
      [ ModeEntry(SoloStandard, true, CustomCollection(soloStandard)),
        ModeEntry(SoloOneSaber, true, CustomCollection(soloOneSaber)),
        ModeEntry(SoloNoArrows, true, CustomCollection(soloNoArrows)),
        ModeEntry(PartyStandard, true, CustomCollection(partyStandard)) ]
    }

    ghost predicate Valid()
      reads this, Lists(), modes, levelPool, dataPool, customLevels, passLevels
    {
      && soloStandard != soloOneSaber && soloStandard != soloNoArrows && soloStandard != partyStandard
      && soloOneSaber != soloNoArrows && soloOneSaber != partyStandard && soloNoArrows != partyStandard
      && modes.collections == Table()
      && levelPool.Valid() && dataPool.Valid()
      && (forall m :: Collection(m).levelsList == Lift(builtIns(m)) + (if published then Dist(customLevels, m) else []))
      && (forall x :: x in customLevels ==> x in levelPool.used && x.levelInfo != null)
      && (forall x :: x in passLevels ==> x in levelPool.used && x.levelInfo != null)
      && QueueOrdered(queue, pass)
      && (published ==> Finish(pass) !in queue)
    }

    /** `Awake`'s `CreateCustomCollections`: one list per mode, each starting
        with the game's own levels of that mode, and a table answering every
        mode from its list. */
    constructor (gameLevels: GameplayMode -> seq<BuiltInLevel>)
      ensures Valid() && builtIns == gameLevels
      ensures forall m :: Collection(m).levelsList == Lift(gameLevels(m))
      ensures !isLoading && !isLoaded && !loadingCanceled && !hasTask && !published
      ensures customLevels == [] && queue == [] && passLevels == []
      ensures loadingProgress == Progress(0, 1)
    {
      var ss, os, na, ps, table := CreateCustomCollections(gameLevels);
      soloStandard, soloOneSaber, soloNoArrows, partyStandard := ss, os, na, ps;
      modes := table;
      levelPool := new LevelPool();
      dataPool := new BeatmapDataPool();
      cache := new MediaCache();
      builtIns := gameLevels;
      isLoading, isLoaded, loadingCanceled, hasTask := false, false, false, false;
      loadingProgress := Progress(0, 1);
      customLevels, queue, pass, passLevels := [], [], 0, [];
      published := false;
      new;
      assert soloStandard != soloOneSaber && soloStandard != soloNoArrows && soloStandard != partyStandard;
      assert soloOneSaber != soloNoArrows && soloOneSaber != partyStandard && soloNoArrows != partyStandard;
      assert modes.collections == Table();
      assert levelPool.Valid() && dataPool.Valid();
      forall m
        ensures Collection(m).levelsList == Lift(builtIns(m)) + (if published then Dist(customLevels, m) else [])
      {
      }
    }

    /** Whatever mode the menus ask for, they get that mode's list. */
    lemma MenusSeeLists(m: GameplayMode)
      requires Valid()
      ensures LevelsFor(modes.collections, m) == Some(Collection(m).levelsList)
    {
      var t := Table();
      var k := match m
        case SoloStandard => 0
        case SoloOneSaber => 1
        case SoloNoArrows => 2
        case PartyStandard => 3;
      assert t == t[..k] + [t[k]] + t[k + 1..];
      LevelsForFirstMatch(t[..k], t[k], t[k + 1..]);
    }

    /** The cancelling half of `OnSceneLoaded`: a scene change during a pass
        cancels it. */
    method OnSceneLoaded()
      requires Valid()
      modifies this`loadingCanceled, this`isLoading, this`loadingProgress
      ensures Valid()
      ensures old(isLoading && hasTask) ==> loadingCanceled && !isLoading && loadingProgress == Progress(0, 1)
      ensures !old(isLoading && hasTask) ==> unchanged(this)
    {
      if isLoading && hasTask {
        loadingCanceled := true;
        isLoading := false;
        loadingProgress := Progress(0, 1);
      }
    }

    /** `ReloadLevels`: only in the menu scene and only when no pass is
        running. Takes every published level out of the four lists, then
        starts a pass. */
    method ReloadLevels(activeScene: string, fullReload: bool, env: Env) returns (ghost items: seq<WorkItem>)
      requires Valid()
      modifies this, Lists(), levelPool, dataPool
      ensures Valid()
      ensures activeScene != MenuSceneName || old(isLoading) ==>
        items == [] && unchanged(this) && unchanged(Lists()) && unchanged(levelPool, dataPool)
      ensures activeScene == MenuSceneName && !old(isLoading) ==>
        && !isLoaded && isLoading && loadingProgress == Progress(0, 1) && !loadingCanceled && hasTask
        && (forall m :: Collection(m).levelsList == Lift(builtIns(m)))
        && !published && pass == old(pass) + 1 && passLevels == []
        && customLevels == (if fullReload then [] else old(customLevels))
        && queue == old(queue) + items + [Finish(pass)]
        && QueuedAs(items, Accept(ProbeWith(env.fs, env.parse, env.sha1),
                                  if fullReload then {} else old(KnownPaths(customLevels)), Visited(env)),
                    pass, FolderCount(env), env.fs)
        && (fullReload ==>
              && levelPool.free == old(levelPool.free + levelPool.used) && levelPool.used == []
              && dataPool.free == old(dataPool.free + dataPool.used) && dataPool.used == [])
        && (!fullReload ==> unchanged(levelPool, dataPool))
    {
      items := [];
      if activeScene != MenuSceneName || isLoading {
        return;
      }
      ghost var known := KnownPaths(customLevels);
      StartLoading();
      RemovePublished();
      assert KnownPaths(customLevels) == known;
      items := RetrieveLevels(fullReload, env);
    }

    /** The flags `ReloadLevels` sets before the removal loop: not loaded,
        loading, no progress, not canceled. */
    method StartLoading()
      requires Valid()
      modifies this`isLoaded, this`isLoading, this`loadingProgress, this`loadingCanceled
      ensures Valid()
      ensures !isLoaded && isLoading && loadingProgress == Progress(0, 1) && !loadingCanceled
    {
      isLoaded := false;
      isLoading := true;
      loadingProgress := Progress(0, 1);
      loadingCanceled := false;
    }

    /** The removal loop of `ReloadLevels`: each published level, in order,
        is removed from each of the four lists. */
    method RemovePublished()
      requires Valid()
      modifies Lists(), this`published
      ensures Valid() && !published
      ensures forall m :: Collection(m).levelsList == Lift(builtIns(m))
    {
      RemoveEach(published);
      published := false;
    }

    /** The loop of `RemovePublished`, over the lists as they stand: when
        `listed`, each list ends with its share of `customLevels`. */
    method RemoveEach(ghost listed: bool)
      requires soloStandard != soloOneSaber && soloStandard != soloNoArrows && soloStandard != partyStandard
      requires soloOneSaber != soloNoArrows && soloOneSaber != partyStandard && soloNoArrows != partyStandard
      requires forall m :: Collection(m).levelsList == Lift(builtIns(m)) + (if listed then Dist(customLevels, m) else [])
      modifies Lists()
      ensures forall m :: Collection(m).levelsList == Lift(builtIns(m))
    {
      ghost var ss := RemovalSteps(customLevels, builtIns(SoloStandard), SoloStandard, listed);
      ghost var os := RemovalSteps(customLevels, builtIns(SoloOneSaber), SoloOneSaber, listed);
      ghost var na := RemovalSteps(customLevels, builtIns(SoloNoArrows), SoloNoArrows, listed);
      ghost var ps := RemovalSteps(customLevels, builtIns(PartyStandard), PartyStandard, listed);
      assert soloStandard == Collection(SoloStandard) && soloOneSaber == Collection(SoloOneSaber);
      assert soloNoArrows == Collection(SoloNoArrows) && partyStandard == Collection(PartyStandard);
      var i := 0;
      while i < |customLevels|
        invariant 0 <= i <= |customLevels|
        invariant soloStandard.levelsList == ss[i]
        invariant soloOneSaber.levelsList == os[i]
        invariant soloNoArrows.levelsList == na[i]
        invariant partyStandard.levelsList == ps[i]
        modifies Lists()
      {
        var level := Custom(customLevels[i]);
        var removed := soloStandard.Remove(level);
        removed := soloOneSaber.Remove(level);
        removed := soloNoArrows.Remove(level);
        removed := partyStandard.Remove(level);
        i := i + 1;
      }
    }

    /** `RetrieveLevels`: a full reload first releases every pooled instance
        and forgets the published levels; then the background pass runs. */
    method RetrieveLevels(fullReload: bool, env: Env) returns (items: seq<WorkItem>)
      requires Valid() && !published
      modifies this, levelPool, dataPool
      ensures Valid() && !published
      ensures pass == old(pass) + 1 && passLevels == [] && hasTask
      ensures customLevels == if fullReload then [] else old(customLevels)
      ensures queue == old(queue) + items + [Finish(pass)]
      ensures QueuedAs(items, Accept(ProbeWith(env.fs, env.parse, env.sha1),
                                     if fullReload then {} else old(KnownPaths(customLevels)), Visited(env)),
                       pass, FolderCount(env), env.fs)
      ensures forall k :: 0 <= k < |items| ==> items[k].LoadItem? && fresh(items[k].info)
      ensures fullReload ==>
        && levelPool.free == old(levelPool.free + levelPool.used) && levelPool.used == []
        && dataPool.free == old(dataPool.free + dataPool.used) && dataPool.used == []
      ensures !fullReload ==> unchanged(levelPool, dataPool)
      ensures isLoading == old(isLoading) && isLoaded == old(isLoaded)
      ensures loadingProgress == old(loadingProgress) && loadingCanceled == old(loadingCanceled)
    {
      BeginPass(fullReload);
      ghost var queue0 := queue;
      items := Produce(env, fullReload);
      QueueOrderedExtend(queue0, items, pass - 1);
    }

    /** The start of `RetrieveLevels`, before the background pass: a full
        reload returns every pooled instance and clears the loaded levels. */
    method BeginPass(fullReload: bool)
      requires Valid() && !published
      modifies this, levelPool, dataPool
      ensures Valid() && !published && QueueOrdered(queue, old(pass))
      ensures pass == old(pass) + 1 && passLevels == [] && hasTask && queue == old(queue)
      ensures customLevels == if fullReload then [] else old(customLevels)
      ensures fullReload ==>
        && levelPool.free == old(levelPool.free + levelPool.used) && levelPool.used == []
        && dataPool.free == old(dataPool.free + dataPool.used) && dataPool.used == []
      ensures !fullReload ==> unchanged(levelPool, dataPool)
      ensures isLoading == old(isLoading) && isLoaded == old(isLoaded)
      ensures loadingProgress == old(loadingProgress) && loadingCanceled == old(loadingCanceled)
    {
      if fullReload {
        levelPool.ReturnAll();
        dataPool.ReturnAll();
        customLevels := [];
      }
      passLevels := [];
      pass := pass + 1;
      hasTask := true;
    }

    /** One dir of the background pass: skipped when a partial reload knows
        its path, when its manifest is missing or does not parse, or when
        its id was already seen in this pass; read, hashed and turned into
        a work item otherwise. */
    method ScanDir(env: Env, known: set<string>, dir: string, index: nat, total: nat,
                   ghost before: seq<(string, nat)>, ids0: seq<string>)
      returns (ids: seq<string>, items: seq<WorkItem>, ghost added: seq<Accepted>)
      requires ids0 == Ids(Accept(ProbeWith(env.fs, env.parse, env.sha1), known, before))
      ensures Accept(ProbeWith(env.fs, env.parse, env.sha1), known, before + [(dir, index)])
           == Accept(ProbeWith(env.fs, env.parse, env.sha1), known, before) + added
      ensures ids == Ids(Accept(ProbeWith(env.fs, env.parse, env.sha1), known, before + [(dir, index)]))
      ensures QueuedAs(items, added, pass, total, env.fs)
      ensures forall k :: 0 <= k < |items| ==> items[k].LoadItem? && fresh(items[k].info)
    {
      ghost var probe := ProbeWith(env.fs, env.parse, env.sha1);
      ids, items, added := ids0, [], [];
      if dir in known {
        AcceptSkip(probe, known, before, dir, index);
        return;
      }
      var info := GetCustomLevelInfo(env, dir);
      if info == null {
        AcceptSkip(probe, known, before, dir, index);
        return;
      }
      ghost var m := env.parse(env.fs[Combine(dir, InfoFileName)].text).value;
      assert probe(dir) == Some((m, LevelId(env.sha1, env.fs, dir, DeserializedSets(m.difficultyBeatmapSets))));
      var id := info.GetLevelData(env.fs, env.sha1);
      if id.value in ids {
        AcceptSkip(probe, known, before, dir, index);
        return;
      }
      AcceptTake(probe, known, before, dir, index, m, id.value);
      ghost var a := Accepted(dir, m, id.value, index);
      assert Ids(Accept(probe, known, before) + [a]) == Ids(Accept(probe, known, before)) + [a.id];
      ids := ids + [id.value];
      items, added := [LoadItem(pass, info, index, total)], [a];
    }

    /** The inner loop of the background pass over one song folder. */
    method ScanFolder(env: Env, known: set<string>, dirs: seq<string>, index: nat, total: nat,
                      ghost cands: seq<(string, nat)>, ids0: seq<string>)
      returns (ids: seq<string>, items: seq<WorkItem>, ghost added: seq<Accepted>)
      requires ids0 == Ids(Accept(ProbeWith(env.fs, env.parse, env.sha1), known, cands))
      ensures Accept(ProbeWith(env.fs, env.parse, env.sha1), known, cands + Tagged(dirs, index))
           == Accept(ProbeWith(env.fs, env.parse, env.sha1), known, cands) + added
      ensures ids == Ids(Accept(ProbeWith(env.fs, env.parse, env.sha1), known, cands + Tagged(dirs, index)))
      ensures QueuedAs(items, added, pass, total, env.fs)
      ensures forall k :: 0 <= k < |items| ==> items[k].LoadItem? && fresh(items[k].info)
    {
      ghost var probe := ProbeWith(env.fs, env.parse, env.sha1);
      ghost var acc0 := Accept(probe, known, cands);
      added := [];
      ids, items := ids0, [];
      var j := 0;
      assert cands + Tagged(dirs[..0], index) == cands;
      while j < |dirs|
        invariant 0 <= j <= |dirs|
        invariant Accept(probe, known, cands + Tagged(dirs[..j], index)) == acc0 + added
        invariant ids == Ids(acc0 + added)
        invariant QueuedAs(items, added, pass, total, env.fs)
        invariant forall k :: 0 <= k < |items| ==> items[k].LoadItem? && fresh(items[k].info)
      {
        ghost var before := cands + Tagged(dirs[..j], index);
        TaggedStep(cands, dirs, j, index);
        var newIds, newItems, newAdded := ScanDir(env, known, dirs[j], index, total, before, ids);
        QueuedAsAppend(items, added, newItems, newAdded, pass, total, env.fs);
        AppendAssoc(acc0, added, newAdded);
        ids, items, added := newIds, items + newItems, added + newAdded;
        j := j + 1;
      }
      assert dirs[..j] == dirs;
    }

    /** The background pass: every song folder in order, stopping for good
        at the first folder whose listing throws; its items are queued,
        then the completion item. */
    method Produce(env: Env, fullReload: bool) returns (items: seq<WorkItem>)
      modifies this`queue
      ensures queue == old(queue) + items + [Finish(pass)]
      ensures QueuedAs(items, Accept(ProbeWith(env.fs, env.parse, env.sha1), if fullReload then {} else KnownPaths(customLevels), Visited(env)),
                       pass, FolderCount(env), env.fs)
      ensures forall k :: 0 <= k < |items| ==> items[k].LoadItem? && fresh(items[k].info)
    {
      var known: set<string> := {};
      if !fullReload {
        known := KnownPaths(customLevels);
      }
      items := [];
      if env.songFolders.Some? {
        items := ScanAll(env, known, env.songFolders.value);
      }
      queue := queue + items + [Finish(pass)];
    }

    /** The outer loop of the background pass. */
    method ScanAll(env: Env, known: set<string>, folders: seq<SongFolder>) returns (items: seq<WorkItem>)
      ensures QueuedAs(items, Accept(ProbeWith(env.fs, env.parse, env.sha1), known, Listed(folders).candidates), pass, |folders|, env.fs)
      ensures forall k :: 0 <= k < |items| ==> items[k].LoadItem? && fresh(items[k].info)
    {
      ghost var probe := ProbeWith(env.fs, env.parse, env.sha1);
      var ids: seq<string> := [];
      ghost var acc: seq<Accepted> := [];
      items := [];
      var i := 0;
      var stop := false;
      while i < |folders| && !stop
        invariant 0 <= i <= |folders|
        invariant !stop ==> !Listed(folders[..i]).aborted
        invariant stop ==> Listed(folders).candidates == Listed(folders[..i]).candidates
        invariant acc == Accept(probe, known, Listed(folders[..i]).candidates)
        invariant ids == Ids(acc)
        invariant QueuedAs(items, acc, pass, |folders|, env.fs)
        invariant forall k :: 0 <= k < |items| ==> items[k].LoadItem? && fresh(items[k].info)
        decreases |folders| - i, if stop then 0 else 1
      {
        ListedStep(folders, i);
        match folders[i].infoDirs {
          case None =>
            ListedStopsAt(folders, i);
            stop := true;
          case Some(dirs) =>
            var newIds, newItems, newAdded := ScanFolder(env, known, dirs, i + 1, |folders|, Listed(folders[..i]).candidates, ids);
            QueuedAsAppend(items, acc, newItems, newAdded, pass, |folders|, env.fs);
            ids, items, acc := newIds, items + newItems, acc + newAdded;
            i := i + 1;
        }
      }
      if !stop {
        assert folders[..i] == folders;
      }
    }

    /** A level for a characteristic seen for the first time: drawn from the
        pool, initialised from the manifest and given the silent clip. `ok`
        is false when `Init` throws because the manifest file is gone. The
        levels drawn earlier for the same manifest are left as they were. */
    method DrawLevel(info: CustomLevelInfo, c: Characteristic, env: Env,
                     ghost groups: seq<Group>, ghost sets: seq<DifficultyBeatmapSet>, ghost used0: seq<CustomLevelSO>,
                     ghost scenes: SceneCaching, ghost stamp: Stamp)
      returns (level: CustomLevelSO, ok: bool)
      requires levelPool.Valid() && FirstNamed(env.resources, DefaultEnvironment).Some?
      requires levelPool.used == used0 + Levels(groups) && Built(groups, info, sets, stamp)
      requires Resolved(info, env, scenes, stamp.scene) && SceneCached(groups, scenes)
      modifies levelPool, levelPool.free, info`difficultyBeatmapSets, cache`sceneInfos
      ensures Built(groups, info, sets, stamp)
      ensures levelPool.Valid() && levelPool.used == old(levelPool.used) + [level]
      ensures level in old(levelPool.free) || fresh(level)
      ensures forall x :: x in levelPool.free ==> x in old(levelPool.free)
      ensures level.levelInfo == info && level.characteristic == c
      ensures ok <==> Combine(info.levelPath, InfoFileName) in env.fs
      ensures !ok ==> info.difficultyBeatmapSets == old(info.difficultyBeatmapSets)
      ensures ok ==> info.difficultyBeatmapSets == FillJson(env.fs, info.levelPath, old(info.difficultyBeatmapSets))
      ensures ok ==> Drawn(level, info, c, Stamp(LevelId(env.sha1, env.fs, info.levelPath, old(info.difficultyBeatmapSets)), stamp.scene))
      ensures cache.sceneInfos == if ok then scenes.after else old(cache.sceneInfos)
    {
      SceneSettled(info, env, scenes, stamp.scene, cache.sceneInfos);
      HeldNotFree(groups, used0);
      ghost var drawn, datas := LevelSet(groups), DataOf(groups);
      level, ok := DrawInit(info, c, env);
      assert unchanged(drawn, datas);
    }

    /** The body of `DrawLevel`: the pool draw, `Init` and the silent clip. */
    method DrawInit(info: CustomLevelInfo, c: Characteristic, env: Env) returns (level: CustomLevelSO, ok: bool)
      requires levelPool.Valid() && FirstNamed(env.resources, DefaultEnvironment).Some?
      modifies levelPool, levelPool.free, info`difficultyBeatmapSets, cache`sceneInfos
      ensures levelPool.Valid() && levelPool.used == old(levelPool.used) + [level]
      ensures level in old(levelPool.free) || fresh(level)
      ensures forall x :: x in levelPool.free ==> x in old(levelPool.free)
      ensures level.levelInfo == info && level.characteristic == c
      ensures ok <==> Combine(info.levelPath, InfoFileName) in env.fs
      ensures !ok ==> info.difficultyBeatmapSets == old(info.difficultyBeatmapSets)
      ensures ok ==> info.difficultyBeatmapSets == FillJson(env.fs, info.levelPath, old(info.difficultyBeatmapSets))
      ensures ok ==> Drawn(level, info, c, Stamp(LevelId(env.sha1, env.fs, info.levelPath, old(info.difficultyBeatmapSets)),
                                                 ResolveScene(old(cache.sceneInfos), env.resources, info.environmentName)))
      ensures cache.sceneInfos ==
        if ok then SceneCacheAfter(old(cache.sceneInfos), env.resources, info.environmentName) else old(cache.sceneInfos)
    {
      level := levelPool.Get();
      ok := level.Init(info, c, env.fs, env.sha1, cache, env.resources);
      if ok {
        level.SetAudioClip(EmptyAudioClip);
      }
    }

    /** The inner loop of `LoadSong` over one set's entries: an entry with
        JSON text draws a beatmap-data instance holding it, and becomes a
        beatmap of `level` when its difficulty parses. */
    method AddBeatmaps(level: CustomLevelSO, bs: seq<DifficultyBeatmap>) returns (added: seq<Beatmap>)
      requires dataPool.Valid()
      modifies dataPool, dataPool.free
      ensures dataPool.Valid() && old(dataPool.used) <= dataPool.used
      ensures |dataPool.used| == |old(dataPool.used)| + JsonCount(bs)
      ensures forall x :: x in dataPool.free ==> x in old(dataPool.free)
      ensures Matches(added, Kept(bs), level)
      ensures forall k :: 0 <= k < |added| ==> added[k].beatmapData in dataPool.used
    {
      added := [];
      var j := 0;
      while j < |bs|
        invariant 0 <= j <= |bs|
        invariant dataPool.Valid() && old(dataPool.used) <= dataPool.used
        invariant |dataPool.used| == |old(dataPool.used)| + JsonCount(bs[..j])
        invariant forall x :: x in dataPool.free ==> x in old(dataPool.free)
        invariant forall k :: 0 <= k < |dataPool.free| ==> dataPool.free[k] in old(dataPool.free)
        invariant Matches(added, Kept(bs[..j]), level)
        invariant forall k :: 0 <= k < |added| ==> added[k].beatmapData in dataPool.used
      {
        assert bs[..j + 1][..j] == bs[..j];
        var one := AddBeatmap(level, bs[j]);
        MatchesAppend(added, Kept(bs[..j]), one, if Usable(bs[j]) then [Shape(bs[j])] else [], level);
        added := added + one;
        j := j + 1;
      }
      assert bs[..j] == bs;
    }

    /** One entry of the inner loop: an entry with JSON text draws a
        beatmap-data instance holding the text, and yields a beatmap when
        its difficulty parses. */
    method AddBeatmap(level: CustomLevelSO, b: DifficultyBeatmap) returns (one: seq<Beatmap>)
      requires dataPool.Valid()
      modifies dataPool, dataPool.free
      ensures dataPool.Valid() && old(dataPool.used) <= dataPool.used
      ensures |dataPool.used| == |old(dataPool.used)| + (if HasJson(b) then 1 else 0)
      ensures forall x :: x in dataPool.free ==> x in old(dataPool.free)
      ensures Matches(one, if Usable(b) then [Shape(b)] else [], level)
      ensures forall k :: 0 <= k < |one| ==> one[k].beatmapData in dataPool.used
    {
      one := [];
      if b.jsonData.Some? && b.jsonData.value != "" {
        var data := dataPool.Get();
        assert data in old(dataPool.free) || fresh(data);
        data.SetJsonData(b.jsonData.value);
        match ParseDifficulty(b.difficulty) {
          case Some(d) =>
            one := [Beatmap(level, d, b.difficultyRank, b.noteJumpMovementSpeed, data)];
          case None =>
        }
      }
    }

    /** The scene cache during `LoadSong`'s first loop: as it was before
        the song until a level has been drawn, and then as the first
        `Init` left it. */
    ghost predicate SceneCached(groups: seq<Group>, scenes: SceneCaching)
      reads cache
    {
      cache.sceneInfos == if groups == [] then scenes.before else scenes.after
    }

    /** What `LoadSong`'s first loop keeps after `i` of the manifest's
        sets `sets0`: the groups hold one drawn level per characteristic
        seen so far, in order of first appearance, each with the kept
        entries of those sets filed under it; the manifest's beatmap data
        are filled once a level has been drawn. */
    ghost predicate Loading(info: CustomLevelInfo, env: Env, groups: seq<Group>, i: nat,
                            sets0: seq<DifficultyBeatmapSet>, used0: seq<CustomLevelSO>, data0: seq<CustomBeatmapData>,
                            scenes: SceneCaching, stamp: Stamp)
      reads levelPool, dataPool, info, LevelSet(groups), DataOf(groups)
    {
      var filled := FillJson(env.fs, info.levelPath, sets0);
      && i <= |sets0|
      && levelPool.Valid() && dataPool.Valid()
      && (Combine(info.levelPath, InfoFileName) in env.fs ==> stamp.levelId == LevelId(env.sha1, env.fs, info.levelPath, sets0))
      && GroupChars(groups) == Chars(sets0[..i])
      && info.difficultyBeatmapSets == (if groups == [] then sets0 else filled)
      && (groups != [] ==> Combine(info.levelPath, InfoFileName) in env.fs)
      && Built(groups, info, filled[..i], stamp)
      && levelPool.used == used0 + Levels(groups)
      && data0 <= dataPool.used && DataIn(groups, dataPool.used)
      && |dataPool.used| == |data0| + DataDraws(filled[..i])
      && (groups == [] ==> dataPool.used == data0)
    }

    /** One set of `LoadSong`'s first loop. A set whose characteristic name
        does not parse is skipped; the first set of a characteristic draws
        its level; the set's entries are added to that characteristic's
        beatmaps. `ok` is false when drawing the level throws. */
    method LoadSet(info: CustomLevelInfo, env: Env, groups: seq<Group>, i: nat,
                   ghost sets0: seq<DifficultyBeatmapSet>, ghost used0: seq<CustomLevelSO>, ghost data0: seq<CustomBeatmapData>,
                   ghost scenes: SceneCaching, ghost stamp: Stamp)
      returns (next: seq<Group>, ok: bool)
      requires FirstNamed(env.resources, DefaultEnvironment).Some?
      requires i < |sets0| && Loading(info, env, groups, i, sets0, used0, data0, scenes, stamp)
      requires Resolved(info, env, scenes, stamp.scene) && SceneCached(groups, scenes)
      modifies levelPool, dataPool, levelPool.free, dataPool.free, info`difficultyBeatmapSets, cache`sceneInfos
      ensures levelPool.Valid() && dataPool.Valid()
      ensures forall x :: x in levelPool.free ==> x in old(levelPool.free)
      ensures forall x :: x in dataPool.free ==> x in old(dataPool.free)
      ensures !ok ==>
        && Combine(info.levelPath, InfoFileName) !in env.fs && Chars(sets0) != []
        && info.difficultyBeatmapSets == sets0 && dataPool.used == data0 && cache.sceneInfos == scenes.before
        && |levelPool.used| == |used0| + 1 && used0 <= levelPool.used
      ensures ok ==>
        && Loading(info, env, next, i + 1, sets0, used0, data0, scenes, stamp) && SceneCached(next, scenes)
        && (forall x :: x in LevelSet(next) ==> x in LevelSet(groups) || x in old(levelPool.free) || fresh(x))
    {
      StepChars(env.fs, info.levelPath, sets0, i);
      var c := SetCharacteristic(info.difficultyBeatmapSets[i]);
      if c.None? {
        SkipLoading(info, env, groups, i, sets0, used0, data0, scenes, stamp);
        next, ok := groups, true;
        return;
      }
      next, ok := LoadKnown(info, env, groups, c.value, i, sets0, used0, data0, scenes, stamp);
      if !ok {
        CharsGrow(sets0, i + 1);
      }
    }

    /** A set whose characteristic name does not parse changes nothing. */
    lemma SkipLoading(info: CustomLevelInfo, env: Env, groups: seq<Group>, i: nat,
                      sets0: seq<DifficultyBeatmapSet>, used0: seq<CustomLevelSO>, data0: seq<CustomBeatmapData>,
                      scenes: SceneCaching, stamp: Stamp)
      requires i < |sets0| && SetCharacteristic(sets0[i]).None?
      requires Loading(info, env, groups, i, sets0, used0, data0, scenes, stamp)
      ensures Loading(info, env, groups, i + 1, sets0, used0, data0, scenes, stamp)
    {
      ghost var filled := FillJson(env.fs, info.levelPath, sets0);
      StepChars(env.fs, info.levelPath, sets0, i);
      StepDraws(filled, i);
      BuiltSkip(groups, info, filled, i, stamp);
    }

    /** `LoadSet` for a set of characteristic `c`. */
    method LoadKnown(info: CustomLevelInfo, env: Env, groups: seq<Group>, c: Characteristic, i: nat,
                   ghost sets0: seq<DifficultyBeatmapSet>, ghost used0: seq<CustomLevelSO>, ghost data0: seq<CustomBeatmapData>,
                   ghost scenes: SceneCaching, ghost stamp: Stamp)
      returns (next: seq<Group>, ok: bool)
      requires FirstNamed(env.resources, DefaultEnvironment).Some?
      requires i < |sets0| && Loading(info, env, groups, i, sets0, used0, data0, scenes, stamp)
      requires Resolved(info, env, scenes, stamp.scene) && SceneCached(groups, scenes)
      requires SetCharacteristic(sets0[i]) == Some(c)
      modifies levelPool, dataPool, levelPool.free, dataPool.free, info`difficultyBeatmapSets, cache`sceneInfos
      ensures levelPool.Valid() && dataPool.Valid()
      ensures forall x :: x in levelPool.free ==> x in old(levelPool.free)
      ensures forall x :: x in dataPool.free ==> x in old(dataPool.free)
      ensures !ok ==>
        && groups == [] && Combine(info.levelPath, InfoFileName) !in env.fs && Chars(sets0[..i + 1]) != []
        && info.difficultyBeatmapSets == sets0 && dataPool.used == old(dataPool.used) && cache.sceneInfos == scenes.before
        && |levelPool.used| == |old(levelPool.used)| + 1 && old(levelPool.used) <= levelPool.used
      ensures ok ==>
        && Loading(info, env, next, i + 1, sets0, used0, data0, scenes, stamp) && SceneCached(next, scenes)
        && (forall x :: x in LevelSet(next) ==> x in LevelSet(groups) || x in old(levelPool.free) || fresh(x))
    {
      ghost var filled := FillJson(env.fs, info.levelPath, sets0);
      StepChars(env.fs, info.levelPath, sets0, i);
      var k;
      next, k, ok := GroupFor(info, env, groups, c, i, sets0, used0, scenes, stamp);
      if !ok {
        return;
      }
      next := FillKnown(info, env, next, k, c, i, sets0, used0, data0, scenes, stamp);
    }

    /** The second half of `LoadKnown`: the set's entries join the group `k`
        of its characteristic, after which the loop's state is that of the
        next set. */
    method FillKnown(info: CustomLevelInfo, env: Env, groups: seq<Group>, k: nat, c: Characteristic, i: nat,
                     ghost sets0: seq<DifficultyBeatmapSet>, ghost used0: seq<CustomLevelSO>, ghost data0: seq<CustomBeatmapData>,
                     ghost scenes: SceneCaching, ghost stamp: Stamp)
      returns (next: seq<Group>)
      requires levelPool.Valid() && dataPool.Valid()
      requires i < |sets0| && k < |groups| && groups[k].characteristic == c && SetCharacteristic(sets0[i]) == Some(c)
      requires Combine(info.levelPath, InfoFileName) in env.fs && stamp.levelId == LevelId(env.sha1, env.fs, info.levelPath, sets0)
      requires info.difficultyBeatmapSets == FillJson(env.fs, info.levelPath, sets0)
      requires Grown(groups, info, FillJson(env.fs, info.levelPath, sets0)[..i], Chars(sets0[..i + 1]), stamp, used0,
                     levelPool.used, dataPool.used)
      requires data0 <= dataPool.used && |dataPool.used| == |data0| + DataDraws(FillJson(env.fs, info.levelPath, sets0)[..i])
      requires cache.sceneInfos == scenes.after
      modifies dataPool, dataPool.free
      ensures forall x :: x in dataPool.free ==> x in old(dataPool.free)
      ensures Loading(info, env, next, i + 1, sets0, used0, data0, scenes, stamp) && SceneCached(next, scenes)
      ensures LevelSet(next) == LevelSet(groups)
    {
      ghost var filled := FillJson(env.fs, info.levelPath, sets0);
      StepChars(env.fs, info.levelPath, sets0, i);
      StepDraws(filled, i);
      CharsDistinct(sets0[..i + 1]);
      next := FillGroup(groups, k, info.difficultyBeatmapSets[i].difficultyBeatmaps, info, filled, i, stamp, data0);
    }

    /** The group of characteristic `c`: the existing one, or, for the
        first set of `c`, a new one whose level is drawn and which starts
        with no beatmaps. */
    method GroupFor(info: CustomLevelInfo, env: Env, groups: seq<Group>, c: Characteristic, i: nat,
                    ghost sets0: seq<DifficultyBeatmapSet>, ghost used0: seq<CustomLevelSO>,
                    ghost scenes: SceneCaching, ghost stamp: Stamp)
      returns (next: seq<Group>, k: nat, ok: bool)
      requires levelPool.Valid() && FirstNamed(env.resources, DefaultEnvironment).Some?
      requires Combine(info.levelPath, InfoFileName) in env.fs ==> stamp.levelId == LevelId(env.sha1, env.fs, info.levelPath, sets0)
      requires i < |sets0| && GroupChars(groups) == Chars(sets0[..i])
      requires SetCharacteristic(sets0[i]) == Some(c)
      requires info.difficultyBeatmapSets == if groups == [] then sets0 else FillJson(env.fs, info.levelPath, sets0)
      requires groups != [] ==> Combine(info.levelPath, InfoFileName) in env.fs
      requires Built(groups, info, FillJson(env.fs, info.levelPath, sets0)[..i], stamp)
      requires levelPool.used == used0 + Levels(groups) && DataIn(groups, dataPool.used)
      requires Resolved(info, env, scenes, stamp.scene) && SceneCached(groups, scenes)
      modifies levelPool, levelPool.free, info`difficultyBeatmapSets, cache`sceneInfos
      ensures levelPool.Valid()
      ensures forall x :: x in levelPool.free ==> x in old(levelPool.free)
      ensures !ok ==>
        && groups == [] && Combine(info.levelPath, InfoFileName) !in env.fs
        && info.difficultyBeatmapSets == sets0 && cache.sceneInfos == scenes.before
        && |levelPool.used| == |old(levelPool.used)| + 1 && old(levelPool.used) <= levelPool.used
      ensures ok ==>
        && k < |next| && next[k].characteristic == c
        && info.difficultyBeatmapSets == FillJson(env.fs, info.levelPath, sets0)
        && Combine(info.levelPath, InfoFileName) in env.fs
        && Grown(next, info, FillJson(env.fs, info.levelPath, sets0)[..i], Chars(sets0[..i + 1]), stamp, used0,
                 levelPool.used, dataPool.used)
        && cache.sceneInfos == scenes.after
        && (forall x :: x in LevelSet(next) ==> x in LevelSet(groups) || x in old(levelPool.free) || fresh(x))
    {
      var g := GroupIndex(groups, c);
      if g.Some? {
        next, k, ok := groups, g.value, true;
        assert c in Chars(sets0[..i]);
        StepChars(env.fs, info.levelPath, sets0, i);
        return;
      }
      next, ok := OpenGroup(info, env, groups, c, i, sets0, used0, scenes, stamp);
      k := |groups|;
    }

    /** A new group for the first set of characteristic `c`: its level is
        drawn and it starts with no beatmaps. */
    method OpenGroup(info: CustomLevelInfo, env: Env, groups: seq<Group>, c: Characteristic, i: nat,
                    ghost sets0: seq<DifficultyBeatmapSet>, ghost used0: seq<CustomLevelSO>,
                    ghost scenes: SceneCaching, ghost stamp: Stamp)
      returns (next: seq<Group>, ok: bool)
      requires levelPool.Valid() && FirstNamed(env.resources, DefaultEnvironment).Some?
      requires Combine(info.levelPath, InfoFileName) in env.fs ==> stamp.levelId == LevelId(env.sha1, env.fs, info.levelPath, sets0)
      requires i < |sets0| && GroupChars(groups) == Chars(sets0[..i])
      requires SetCharacteristic(sets0[i]) == Some(c) && c !in Chars(sets0[..i])
      requires info.difficultyBeatmapSets == if groups == [] then sets0 else FillJson(env.fs, info.levelPath, sets0)
      requires groups != [] ==> Combine(info.levelPath, InfoFileName) in env.fs
      requires Built(groups, info, FillJson(env.fs, info.levelPath, sets0)[..i], stamp)
      requires levelPool.used == used0 + Levels(groups) && DataIn(groups, dataPool.used)
      requires Resolved(info, env, scenes, stamp.scene) && SceneCached(groups, scenes)
      modifies levelPool, levelPool.free, info`difficultyBeatmapSets, cache`sceneInfos
      ensures levelPool.Valid()
      ensures forall x :: x in levelPool.free ==> x in old(levelPool.free)
      ensures !ok ==>
        && groups == [] && Combine(info.levelPath, InfoFileName) !in env.fs
        && info.difficultyBeatmapSets == sets0 && cache.sceneInfos == scenes.before
        && |levelPool.used| == |old(levelPool.used)| + 1 && old(levelPool.used) <= levelPool.used
      ensures ok ==>
        && |next| == |groups| + 1 && next[|groups|].characteristic == c
        && info.difficultyBeatmapSets == FillJson(env.fs, info.levelPath, sets0)
        && Combine(info.levelPath, InfoFileName) in env.fs
        && Grown(next, info, FillJson(env.fs, info.levelPath, sets0)[..i], Chars(sets0[..i + 1]), stamp, used0,
                 levelPool.used, dataPool.used)
        && cache.sceneInfos == scenes.after
        && (forall x :: x in LevelSet(next) ==> x in LevelSet(groups) || x in old(levelPool.free) || fresh(x))
    {
      StepChars(env.fs, info.levelPath, sets0, i);
      next := groups;
      ghost var sets1 := info.difficultyBeatmapSets;
      var level;
      level, ok := DrawLevel(info, c, env, groups, FillJson(env.fs, info.levelPath, sets0)[..i], used0, scenes, stamp);
      if !ok {
        return;
      }
      var g' := Group(c, level, []);
      DrawnOpened(groups, g', info, env, sets0, sets1, i, stamp, used0, levelPool.used, dataPool.used);
      assert GroupChars(groups) + [c] == Chars(sets0[..i + 1]);
      assert Grown(groups + [g'], info, FillJson(env.fs, info.levelPath, sets0)[..i], Chars(sets0[..i + 1]), stamp, used0,
                   levelPool.used, dataPool.used);
      next := groups + [g'];
    }

    /** The levels the groups hold are handed out, so none of them is released. */
    lemma HeldNotFree(groups: seq<Group>, used0: seq<CustomLevelSO>)
      requires levelPool.Valid() && levelPool.used == used0 + Levels(groups)
      ensures forall x :: x in LevelSet(groups) ==> x !in levelPool.free
    {
      forall x | x in LevelSet(groups) ensures x !in levelPool.free {
        var k :| 0 <= k < |groups| && groups[k].level == x;
        assert levelPool.used[|used0| + k] == x;
      }
    }

    /** Adds the entries of a set filed under group `k`'s characteristic to that group. */
    method FillGroup(groups: seq<Group>, k: nat, bs: seq<DifficultyBeatmap>, info: CustomLevelInfo,
                     ghost sets: seq<DifficultyBeatmapSet>, ghost i: nat, ghost stamp: Stamp, ghost data0: seq<CustomBeatmapData>)
      returns (next: seq<Group>)
      requires dataPool.Valid()
      requires i < |sets| && k < |groups| && bs == sets[i].difficultyBeatmaps
      requires SetCharacteristic(sets[i]) == Some(groups[k].characteristic) && Distinct(GroupChars(groups))
      requires Built(groups, info, sets[..i], stamp) && DataIn(groups, dataPool.used) && data0 <= dataPool.used
      modifies dataPool, dataPool.free
      ensures dataPool.Valid()
      ensures forall x :: x in dataPool.free ==> x in old(dataPool.free)
      ensures data0 <= dataPool.used && |dataPool.used| == |old(dataPool.used)| + JsonCount(bs)
      ensures Built(next, info, sets[..i + 1], stamp) && DataIn(next, dataPool.used)
      ensures |next| == |groups| && Levels(next) == Levels(groups) && GroupChars(next) == GroupChars(groups)
      ensures LevelSet(next) == LevelSet(groups)
    {
      var added := AddBeatmaps(groups[k].level, bs);
      assert Built(groups, info, sets[..i], stamp);
      DataInGrown(groups, old(dataPool.used), dataPool.used);
      BuiltExtended(groups, k, added, info, sets, i, stamp);
      DataInAdded(groups, k, added, dataPool.used);
      next := groups[k := groups[k].(beatmaps := groups[k].beatmaps + added)];
      assert Levels(next) == Levels(groups) && GroupChars(next) == GroupChars(groups);
      assert LevelSet(next) == LevelSet(groups) by {
        assert forall r :: 0 <= r < |next| ==> next[r].level == groups[r].level;
      }
    }

    /** One entry of `LoadSong`'s second loop: a level with at least one
        beatmap gets its beatmaps and its cover and is handed back. */
    method EmitOne(g: Group, env: Env, info: CustomLevelInfo, ghost sets: seq<DifficultyBeatmapSet>, ghost stamp: Stamp)
      returns (emitted: bool)
      requires Drawn(g.level, info, g.characteristic, stamp)
      requires Matches(g.beatmaps, Expected(sets, g.characteristic), g.level)
      modifies g.level`difficultyBeatmaps, g.level`coverImage, cache`coverImages
      ensures emitted <==> Expected(sets, g.characteristic) != []
      ensures Drawn(g.level, info, g.characteristic, stamp)
      ensures emitted ==> g.level.difficultyBeatmaps == g.beatmaps && Loaded(g.level, info, g.characteristic, sets, stamp)
      ensures emitted ==>
        var found := CoverFound(old(cache.coverImages), env.fs, env.decodeImage, CoverPath(info));
        && cache.coverImages == CoverCacheAfter(old(cache.coverImages), env.fs, env.decodeImage, CoverPath(info))
        && g.level.coverImage == CoverAfter(found, old(g.level.coverImage))
      ensures !emitted ==> unchanged(g.level) && cache.coverImages == old(cache.coverImages)
    {
      emitted := |g.beatmaps| > 0;
      if emitted {
        g.level.SetDifficultyBeatmaps(g.beatmaps);
        g.level.LoadCoverImage(env.fs, env.decodeImage, cache);
      }
    }

    /** `LoadSong`'s second loop, in the order the characteristics were
        first seen: the levels with at least one beatmap are handed back. */
    method Emit(groups: seq<Group>, env: Env, info: CustomLevelInfo, ghost sets: seq<DifficultyBeatmapSet>, ghost stamp: Stamp)
      returns (out: seq<CustomLevelSO>)
      requires Built(groups, info, sets, stamp) && Distinct(Levels(groups))
      modifies LevelSet(groups), cache`coverImages
      ensures |out| == |NonEmpty(GroupChars(groups), sets)|
      ensures forall r :: 0 <= r < |out| ==>
        out[r] in LevelSet(groups) && Loaded(out[r], info, NonEmpty(GroupChars(groups), sets)[r], sets, stamp)
      ensures var found := CoverFound(old(cache.coverImages), env.fs, env.decodeImage, CoverPath(info));
        && cache.coverImages ==
             (if out == [] then old(cache.coverImages)
              else CoverCacheAfter(old(cache.coverImages), env.fs, env.decodeImage, CoverPath(info)))
        && (found.Some? ==> forall r :: 0 <= r < |out| ==> out[r].coverImage == found)
    {
      out := [];
      ghost var at: seq<nat> := [];
      ghost var ne: seq<Characteristic> := [];
      ghost var covers0 := cache.coverImages;
      ghost var cover := Covering(CoverFound(covers0, env.fs, env.decodeImage, CoverPath(info)), covers0,
                                  CoverCacheAfter(covers0, env.fs, env.decodeImage, CoverPath(info)));
      var k := 0;
      while k < |groups|
        invariant k <= |groups| && Emitting(groups, env, info, sets, stamp, cover, k, out, at, ne)
      {
        out, at, ne := EmitStep(groups, env, info, sets, stamp, cover, k, out, at, ne);
        k := k + 1;
      }
      assert GroupChars(groups)[..k] == GroupChars(groups);
      forall r | 0 <= r < |out|
        ensures out[r] in LevelSet(groups) && Loaded(out[r], info, ne[r], sets, stamp)
        ensures cover.found.Some? ==> out[r].coverImage == cover.found
      {
        assert out[r] == groups[at[r]].level;
      }
    }

    /** What `Emit` keeps after the first `k` groups: `out` holds the levels
        of those with beatmaps, `at` their positions and `ne` their
        characteristics; each handed-back level holds its group's beatmaps. */
    ghost predicate Emitting(groups: seq<Group>, env: Env, info: CustomLevelInfo, sets: seq<DifficultyBeatmapSet>, stamp: Stamp,
                             cover: Covering, k: nat, out: seq<CustomLevelSO>, at: seq<nat>, ne: seq<Characteristic>)
      reads this, cache, LevelSet(groups), DataOf(groups)
    {
      && k <= |groups|
      && ne == NonEmpty(GroupChars(groups)[..k], sets)
      && |out| == |at| == |ne|
      && Built(groups, info, sets, stamp) && Distinct(Levels(groups))
      && (forall r :: 0 <= r < |out| ==>
        && at[r] < k && out[r] == groups[at[r]].level && ne[r] == groups[at[r]].characteristic
        && groups[at[r]].level.difficultyBeatmaps == groups[at[r]].beatmaps
        && (cover.found.Some? ==> groups[at[r]].level.coverImage == cover.found))
      && cover.found == CoverFound(cover.cached, env.fs, env.decodeImage, CoverPath(info))
      && cover.after == CoverCacheAfter(cover.cached, env.fs, env.decodeImage, CoverPath(info))
      && cache.coverImages == (if out == [] then cover.cached else cover.after)
    }

    /** The `k`th group's level is none of those handed back so far and none
        of the later groups' levels. */
    lemma EmitApart(groups: seq<Group>, k: nat, out: seq<CustomLevelSO>, at: seq<nat>)
      requires k < |groups| && Distinct(Levels(groups)) && |out| == |at|
      requires forall r :: 0 <= r < |out| ==> at[r] < k && out[r] == groups[at[r]].level
      ensures forall r :: 0 <= r < |out| ==> out[r] != groups[k].level
      ensures forall j :: k < j < |groups| ==> groups[j].level != groups[k].level
    {
      assert forall r :: 0 <= r < |out| ==> out[r] == Levels(groups)[at[r]] && groups[k].level == Levels(groups)[k];
      assert forall j :: k < j < |groups| ==> groups[j].level == Levels(groups)[j];
    }

    /** One entry of `Emit`'s loop. */
    method EmitStep(groups: seq<Group>, env: Env, info: CustomLevelInfo, ghost sets: seq<DifficultyBeatmapSet>, ghost stamp: Stamp,
                    ghost cover: Covering, k: nat, out: seq<CustomLevelSO>, ghost at: seq<nat>, ghost ne: seq<Characteristic>)
      returns (out': seq<CustomLevelSO>, ghost at': seq<nat>, ghost ne': seq<Characteristic>)
      requires k < |groups| && Emitting(groups, env, info, sets, stamp, cover, k, out, at, ne)
      modifies groups[k].level`difficultyBeatmaps, groups[k].level`coverImage, cache`coverImages
      ensures Emitting(groups, env, info, sets, stamp, cover, k + 1, out', at', ne')
    {
      var g := groups[k];
      var emitted := EmitOne(g, env, info, sets, stamp);
      ghost var step := EmitFrame(groups, env, info, sets, stamp, cover, k, out, at, ne);
      BuiltAcross(step);
      if emitted {
        EmitAdded(step);
        out', at', ne' := out + [g.level], at + [k], ne + [g.characteristic];
      } else {
        EmitSkipped(step);
        out', at', ne' := out, at, ne;
      }
    }

    /** `Built` survives a change to the `k`th group's level that keeps it drawn. */
    twostate lemma BuiltAcross(step: EmitFrame)
      requires var EmitFrame(groups, _, info, sets, stamp, _, k, _, _, _) := step;
        && k < |groups| && old(Built(groups, info, sets, stamp))
        && unchanged(LevelSet(groups) - {groups[k].level}) && unchanged(DataOf(groups))
        && Drawn(groups[k].level, info, groups[k].characteristic, stamp)
      ensures Built(step.groups, step.info, step.sets, step.stamp)
      ensures forall j :: 0 <= j < |step.groups| && step.groups[j].level != step.groups[step.k].level ==> unchanged(step.groups[j].level)
    {
      var EmitFrame(groups, _, info, sets, stamp, _, k, _, _, _) := step;
      forall j | 0 <= j < |groups|
        ensures Drawn(groups[j].level, info, groups[j].characteristic, stamp)
      {
        assert groups[j].level in LevelSet(groups);
      }
    }

    /** `EmitOne` on the `k`th group of a characteristic with beatmaps takes
        `Emitting` from `k` to `k + 1`: only that group's level and the cover
        cache have changed, and the level joins the handed-back ones. */
    twostate lemma EmitAdded(step: EmitFrame)
      requires var EmitFrame(groups, env, info, sets, stamp, cover, k, out, at, ne) := step;
        && k < |groups| && old(Emitting(groups, env, info, sets, stamp, cover, k, out, at, ne))
        && (forall j :: 0 <= j < |groups| && groups[j].level != groups[k].level ==> unchanged(groups[j].level))
        && Built(groups, info, sets, stamp) && Expected(sets, groups[k].characteristic) != []
        && groups[k].level.difficultyBeatmaps == groups[k].beatmaps
        && cache.coverImages == CoverCacheAfter(old(cache.coverImages), env.fs, env.decodeImage, CoverPath(info))
        && groups[k].level.coverImage
             == CoverAfter(CoverFound(old(cache.coverImages), env.fs, env.decodeImage, CoverPath(info)), old(groups[k].level.coverImage))
      ensures var EmitFrame(groups, env, info, sets, stamp, cover, k, out, at, ne) := step;
        Emitting(groups, env, info, sets, stamp, cover, k + 1, out + [groups[k].level], at + [k], ne + [groups[k].characteristic])
    {
      var EmitFrame(groups, env, info, sets, stamp, cover, k, out, at, ne) := step;
      var out2, at2, ne2 := out + [groups[k].level], at + [k], ne + [groups[k].characteristic];
      EmitApart(groups, k, out, at);
      NonEmptyStep(GroupChars(groups), sets, k);
      CoverCacheSettles(cover.cached, env.fs, env.decodeImage, CoverPath(info));
      assert ne2 == NonEmpty(GroupChars(groups)[..k + 1], sets);
      assert cache.coverImages == cover.after;
      forall r | 0 <= r < |out2|
        ensures at2[r] < k + 1 && out2[r] == groups[at2[r]].level && ne2[r] == groups[at2[r]].characteristic
        ensures groups[at2[r]].level.difficultyBeatmaps == groups[at2[r]].beatmaps
        ensures cover.found.Some? ==> groups[at2[r]].level.coverImage == cover.found
      {
        if r < |out| {
          assert at2[r] == at[r] && out2[r] == out[r] && ne2[r] == ne[r];
          assert at[r] < k && out[r] == groups[at[r]].level;
          assert unchanged(groups[at[r]].level);
        } else {
          assert at2[r] == k && out2[r] == groups[k].level && ne2[r] == groups[k].characteristic;
        }
      }
    }

    /** `EmitOne` on the `k`th group of a characteristic without beatmaps
        changes nothing, and `Emitting` moves on to `k + 1`. */
    twostate lemma EmitSkipped(step: EmitFrame)
      requires var EmitFrame(groups, env, info, sets, stamp, cover, k, out, at, ne) := step;
        && k < |groups| && old(Emitting(groups, env, info, sets, stamp, cover, k, out, at, ne))
        && (forall j :: 0 <= j < |groups| && groups[j].level != groups[k].level ==> unchanged(groups[j].level))
        && Built(groups, info, sets, stamp) && Expected(sets, groups[k].characteristic) == []
        && cache.coverImages == old(cache.coverImages)
      ensures var EmitFrame(groups, env, info, sets, stamp, cover, k, out, at, ne) := step;
        Emitting(groups, env, info, sets, stamp, cover, k + 1, out, at, ne)
    {
      var EmitFrame(groups, env, info, sets, stamp, cover, k, out, at, ne) := step;
      EmitApart(groups, k, out, at);
      NonEmptyStep(GroupChars(groups), sets, k);
      forall r | 0 <= r < |out|
        ensures groups[at[r]].level.difficultyBeatmaps == groups[at[r]].beatmaps
        ensures cover.found.Some? ==> groups[at[r]].level.coverImage == cover.found
      {
        assert at[r] < k && out[r] == groups[at[r]].level;
        assert unchanged(groups[at[r]].level);
      }
    }

    /** The instances both pools hold released are among `levels0` and `datas0`. */
    ghost predicate FreeWithin(levels0: seq<CustomLevelSO>, datas0: seq<CustomBeatmapData>)
      reads levelPool, dataPool
    {
      && (forall x :: x in levelPool.free ==> x in levels0)
      && (forall x :: x in dataPool.free ==> x in datas0)
      && (forall j :: 0 <= j < |levelPool.free| ==> levelPool.free[j] in levels0)
      && (forall j :: 0 <= j < |dataPool.free| ==> dataPool.free[j] in datas0)
    }

    /** `LoadSong`'s first loop, over every set of the manifest. `ok` is
        false when drawing a level throws, which the source turns into a
        null result. */
    method GroupSets(info: CustomLevelInfo, env: Env,
                     ghost sets0: seq<DifficultyBeatmapSet>, ghost used0: seq<CustomLevelSO>,
                     ghost data0: seq<CustomBeatmapData>, ghost scenes: SceneCaching, ghost stamp: Stamp)
      returns (groups: seq<Group>, ok: bool)
      requires FirstNamed(env.resources, DefaultEnvironment).Some?
      requires Loading(info, env, [], 0, sets0, used0, data0, scenes, stamp)
      requires Resolved(info, env, scenes, stamp.scene) && SceneCached([], scenes)
      modifies levelPool, dataPool, levelPool.free, dataPool.free, info`difficultyBeatmapSets, cache`sceneInfos
      ensures levelPool.Valid() && dataPool.Valid()
      ensures forall x :: x in levelPool.free ==> x in old(levelPool.free)
      ensures forall x :: x in dataPool.free ==> x in old(dataPool.free)
      ensures !ok ==>
        && Combine(info.levelPath, InfoFileName) !in env.fs && Chars(sets0) != []
        && info.difficultyBeatmapSets == sets0 && dataPool.used == data0 && cache.sceneInfos == scenes.before
        && |levelPool.used| == |used0| + 1 && used0 <= levelPool.used
      ensures ok ==>
        && Loading(info, env, groups, |sets0|, sets0, used0, data0, scenes, stamp) && SceneCached(groups, scenes)
        && (forall x :: x in LevelSet(groups) ==> x in old(levelPool.free) || fresh(x))
    {
      groups := [];
      ghost var levels0, datas0 := levelPool.free, dataPool.free;
      var n := |info.difficultyBeatmapSets|;
      var i := 0;
      while i < n
        invariant i <= n == |sets0|
        invariant Loading(info, env, groups, i, sets0, used0, data0, scenes, stamp)
        invariant FreeWithin(levels0, datas0) && SceneCached(groups, scenes)
        invariant forall x :: x in LevelSet(groups) ==> x in levels0 || fresh(x)
      {
        var next;
        next, ok := LoadSet(info, env, groups, i, sets0, used0, data0, scenes, stamp);
        assert forall j :: 0 <= j < |levelPool.free| ==> levelPool.free[j] in levelPool.free;
        assert forall j :: 0 <= j < |dataPool.free| ==> dataPool.free[j] in dataPool.free;
        if !ok {
          return;
        }
        assert Loading(info, env, next, i + 1, sets0, used0, data0, scenes, stamp);
        groups := next;
        i := i + 1;
      }
      ok := true;
    }

    /** `LoadSong`: one level per characteristic named by the manifest's
        sets, each with the kept entries of every set filed under it;
        levels left without beatmaps are not handed back. `None` stands for
        the null returned when drawing a level throws. */
    method LoadSong(info: CustomLevelInfo, env: Env) returns (levels: Option<seq<CustomLevelSO>>)
      requires levelPool.Valid() && dataPool.Valid()
      requires FirstNamed(env.resources, DefaultEnvironment).Some?
      modifies levelPool, dataPool, levelPool.free, dataPool.free, info`difficultyBeatmapSets, cache`sceneInfos, cache`coverImages
      ensures levelPool.Valid() && dataPool.Valid()
      ensures forall x :: x in levelPool.free ==> x in old(levelPool.free)
      ensures forall x :: x in dataPool.free ==> x in old(dataPool.free)
      ensures old(levelPool.used) <= levelPool.used && old(dataPool.used) <= dataPool.used
      ensures forall x :: x in old(levelPool.used) ==> unchanged(x)
      ensures var sets := old(info.difficultyBeatmapSets);
        Combine(info.levelPath, InfoFileName) !in env.fs ==>
          && levels == (if Chars(sets) == [] then Some([]) else None)
          && |levelPool.used| == |old(levelPool.used)| + (if Chars(sets) == [] then 0 else 1)
          && dataPool.used == old(dataPool.used) && info.difficultyBeatmapSets == sets
          && cache.sceneInfos == old(cache.sceneInfos)
      ensures var sets := old(info.difficultyBeatmapSets);
        Combine(info.levelPath, InfoFileName) in env.fs ==>
          var filled := FillJson(env.fs, info.levelPath, sets);
          var stamp := Stamp(LevelId(env.sha1, env.fs, info.levelPath, sets),
                             ResolveScene(old(cache.sceneInfos), env.resources, info.environmentName));
          && levels.Some? && SongLoaded(levels.value, info, filled, stamp)
          && (forall x :: x in levels.value ==> x in levelPool.used && x !in old(levelPool.used))
          && info.difficultyBeatmapSets == (if Chars(sets) == [] then sets else filled)
          && cache.sceneInfos ==
               (if Chars(sets) == [] then old(cache.sceneInfos)
                else SceneCacheAfter(old(cache.sceneInfos), env.resources, info.environmentName))
          && |levelPool.used| == |old(levelPool.used)| + |Chars(sets)|
          && |dataPool.used| == |old(dataPool.used)| + DataDraws(filled)
      ensures var found := CoverFound(old(cache.coverImages), env.fs, env.decodeImage, CoverPath(info));
        && (levels.Some? && found.Some? ==> forall k :: 0 <= k < |levels.value| ==> levels.value[k].coverImage == found)
        && cache.coverImages ==
             (if levels.None? || levels.value == [] then old(cache.coverImages)
              else CoverCacheAfter(old(cache.coverImages), env.fs, env.decodeImage, CoverPath(info)))
    {
      ghost var sets0 := info.difficultyBeatmapSets;
      ghost var filled := FillJson(env.fs, info.levelPath, sets0);
      ghost var used0, data0 := levelPool.used, dataPool.used;
      ghost var present := Combine(info.levelPath, InfoFileName) in env.fs;
      ghost var scenes := SceneCaching(cache.sceneInfos, SceneCacheAfter(cache.sceneInfos, env.resources, info.environmentName));
      ghost var stamp := Stamp(if present then LevelId(env.sha1, env.fs, info.levelPath, sets0) else "",
                               ResolveScene(scenes.before, env.resources, info.environmentName));
      var groups, ok := GroupSets(info, env, sets0, used0, data0, scenes, stamp);
      if !ok {
        return None;
      }
      GroupedOf(info, env, groups, sets0, used0, data0, scenes, stamp);
      var out := HandBack(info, env, groups, sets0, used0, data0, scenes, stamp);
      levels := Some(out);
    }

    /** The end of `LoadSong` once every set has been grouped: the levels
        with beatmaps are handed back, each holding them and the manifest's
        cover when one is cached or decodes. */
    method HandBack(info: CustomLevelInfo, env: Env, groups: seq<Group>,
                    ghost sets0: seq<DifficultyBeatmapSet>, ghost used0: seq<CustomLevelSO>,
                    ghost data0: seq<CustomBeatmapData>, ghost scenes: SceneCaching, ghost stamp: Stamp)
      returns (out: seq<CustomLevelSO>)
      requires Grouped(info, env, groups, sets0, used0, data0, stamp) && SceneCached(groups, scenes)
      modifies LevelSet(groups), cache`coverImages
      ensures levelPool.Valid() && dataPool.Valid() && used0 <= levelPool.used && data0 <= dataPool.used
      ensures var filled := FillJson(env.fs, info.levelPath, sets0);
        && |out| == |Emitted(filled)|
        && (forall k :: 0 <= k < |out| ==>
              out[k] in levelPool.used && out[k] !in used0 && Loaded(out[k], info, Emitted(filled)[k], filled, stamp))
        && info.difficultyBeatmapSets == (if Chars(sets0) == [] then sets0 else filled)
        && |levelPool.used| == |used0| + |Chars(sets0)|
        && |dataPool.used| == |data0| + DataDraws(filled)
        && (Chars(sets0) == [] ==> out == [] && dataPool.used == data0)
        && cache.sceneInfos ==
             if Chars(sets0) == [] then scenes.before else scenes.after
      ensures var found := CoverFound(old(cache.coverImages), env.fs, env.decodeImage, CoverPath(info));
        && (found.Some? ==> forall k :: 0 <= k < |out| ==> out[k].coverImage == found)
        && cache.coverImages ==
             (if out == [] then old(cache.coverImages)
              else CoverCacheAfter(old(cache.coverImages), env.fs, env.decodeImage, CoverPath(info)))
    {
      ghost var filled := FillJson(env.fs, info.levelPath, sets0);
      out := Emit(groups, env, info, filled, stamp);
      forall r | 0 <= r < |out|
        ensures out[r] in levelPool.used && out[r] !in used0
      {
        var j :| 0 <= j < |groups| && groups[j].level == out[r];
        assert Levels(groups)[j] == out[r];
      }
    }

    /** `Loading` once every set has been grouped, restated over the whole
        filled manifest: one group per characteristic the sets name, each
        level drawn apart from those handed out before. */
    ghost predicate Grouped(info: CustomLevelInfo, env: Env, groups: seq<Group>, sets0: seq<DifficultyBeatmapSet>,
                            used0: seq<CustomLevelSO>, data0: seq<CustomBeatmapData>, stamp: Stamp)
      reads levelPool, dataPool, info, LevelSet(groups), DataOf(groups)
    {
      var filled := FillJson(env.fs, info.levelPath, sets0);
      && levelPool.Valid() && dataPool.Valid()
      && GroupChars(groups) == Chars(filled) && |groups| == |Chars(sets0)|
      && info.difficultyBeatmapSets == (if Chars(sets0) == [] then sets0 else filled)
      && (Chars(sets0) == [] ==> dataPool.used == data0)
      && Built(groups, info, filled, stamp) && Distinct(Levels(groups))
      && levelPool.used == used0 + Levels(groups) && (forall x :: x in used0 ==> x !in Levels(groups))
      && data0 <= dataPool.used && |dataPool.used| == |data0| + DataDraws(filled)
    }

    /** The first loop's state after the last set is `Grouped`. */
    lemma GroupedOf(info: CustomLevelInfo, env: Env, groups: seq<Group>, sets0: seq<DifficultyBeatmapSet>,
                    used0: seq<CustomLevelSO>, data0: seq<CustomBeatmapData>, scenes: SceneCaching, stamp: Stamp)
      requires Loading(info, env, groups, |sets0|, sets0, used0, data0, scenes, stamp)
      ensures Grouped(info, env, groups, sets0, used0, data0, stamp)
    {
      var filled := FillJson(env.fs, info.levelPath, sets0);
      assert sets0[..|sets0|] == sets0 && filled[..|sets0|] == filled;
      CharsIgnoreTexts(env.fs, info.levelPath, sets0);
      if groups == [] {
        NoCharsNoDraws(filled);
      }
      DistinctConcat(used0, Levels(groups));
    }

    /** A queued `LoadSong` delegate. Once loading was canceled it does
        nothing. Otherwise the level is loaded; its levels join the pass's
        list when the delegate belongs to the current pass (a delegate of an
        earlier pass adds to a list nothing reads any more); and the
        progress moves to the delegate's folder. */
    method RunItem(item: WorkItem, env: Env) returns (ghost loaded: seq<CustomLevelSO>)
      requires Valid() && item.LoadItem?
      requires !loadingCanceled ==> FirstNamed(env.resources, DefaultEnvironment).Some?
      modifies this`passLevels, this`loadingProgress, levelPool, dataPool, levelPool.free, dataPool.free
      modifies item.info, cache`sceneInfos, cache`coverImages
      ensures Valid()
      ensures old(loadingCanceled) ==> loaded == [] && unchanged(this, levelPool, dataPool, item.info)
      ensures !old(loadingCanceled) ==>
        && loadingProgress == Progress(item.index, item.total)
        && passLevels == old(passLevels) + (if item.pass == pass then loaded else [])
        && (forall x :: x in loaded ==> x in levelPool.used && x !in old(levelPool.used) && x.levelInfo == item.info)
      ensures !old(loadingCanceled) && Combine(item.info.levelPath, InfoFileName) !in env.fs ==> loaded == []
      ensures var sets := old(item.info.difficultyBeatmapSets);
        !old(loadingCanceled) && Combine(item.info.levelPath, InfoFileName) in env.fs ==>
          SongLoaded(loaded, item.info, FillJson(env.fs, item.info.levelPath, sets),
                     Stamp(LevelId(env.sha1, env.fs, item.info.levelPath, sets),
                           ResolveScene(old(cache.sceneInfos), env.resources, item.info.environmentName)))
    {
      loaded := [];
      if loadingCanceled {
        return;
      }
      ghost var present := Combine(item.info.levelPath, InfoFileName) in env.fs;
      ghost var sets := item.info.difficultyBeatmapSets;
      ghost var filled := FillJson(env.fs, item.info.levelPath, sets);
      ghost var stamp := Stamp(if present then LevelId(env.sha1, env.fs, item.info.levelPath, sets) else "",
                               ResolveScene(cache.sceneInfos, env.resources, item.info.environmentName));
      var levels := LoadLevels(item.info, env);
      var got := if levels.Some? then levels.value else [];
      loaded := got;
      Record(item, got, present, filled, stamp);
    }

    /** The delegate's bookkeeping once its folder is loaded: its levels
        join the pass's list when it belongs to the current pass, and the
        progress moves to its folder. The levels themselves are left as
        loaded. */
    method Record(item: WorkItem, levels: seq<CustomLevelSO>,
                  ghost present: bool, ghost filled: seq<DifficultyBeatmapSet>, ghost stamp: Stamp)
      requires Valid() && item.LoadItem? && forall x :: x in levels ==> x in levelPool.used && x.levelInfo != null
      requires present ==> SongLoaded(levels, item.info, filled, stamp)
      modifies this`passLevels, this`loadingProgress
      ensures Valid() && loadingProgress == Progress(item.index, item.total)
      ensures passLevels == old(passLevels) + (if item.pass == pass then levels else [])
      ensures present ==> SongLoaded(levels, item.info, filled, stamp)
    {
      if item.pass == pass {
        passLevels := passLevels + levels;
      }
      loadingProgress := Progress(item.index, item.total);
    }

    /** `LoadSong` run by the dispatcher: the loaded and pending levels are
        left alone, and the levels handed back are newly drawn from the pool. */
    method LoadLevels(info: CustomLevelInfo, env: Env) returns (levels: Option<seq<CustomLevelSO>>)
      requires Valid() && FirstNamed(env.resources, DefaultEnvironment).Some?
      modifies levelPool, dataPool, levelPool.free, dataPool.free, info, cache`sceneInfos, cache`coverImages
      ensures Valid()
      ensures levels.Some? ==>
        forall x :: x in levels.value ==> x in levelPool.used && x !in old(levelPool.used) && x.levelInfo == info
      ensures Combine(info.levelPath, InfoFileName) !in env.fs ==> levels.None? || levels.value == []
      ensures var sets := old(info.difficultyBeatmapSets);
        Combine(info.levelPath, InfoFileName) in env.fs ==>
          && levels.Some?
          && SongLoaded(levels.value, info, FillJson(env.fs, info.levelPath, sets),
                        Stamp(LevelId(env.sha1, env.fs, info.levelPath, sets),
                              ResolveScene(old(cache.sceneInfos), env.resources, info.environmentName)))
    {
      ghost var kept := set x | x in customLevels || x in passLevels;
      levels := LoadSong(info, env);
      ValidAcrossLoad(kept);
    }

    /** Loading one folder touches only the pools, their released levels and
        the manifest: the loaded and the pass's levels, the lists and the
        table are outside that, so the loader stays valid. */
    twostate lemma ValidAcrossLoad(kept: set<CustomLevelSO>)
      requires old(Valid()) && unchanged(this, modes) && unchanged(Lists()) && unchanged(kept)
      requires forall x :: x in customLevels || x in passLevels ==> x in kept
      requires levelPool.Valid() && dataPool.Valid()
      requires forall x :: x in old(levelPool.used) ==> x in levelPool.used
      ensures Valid()
    {
      assert forall m :: Dist(customLevels, m) == old(Dist(customLevels, m));
    }

    /** The add loop of the completion callback: each level, in order, joins
        the list of every mode its characteristic goes to. */
    method Publish()
      requires soloStandard != soloOneSaber && soloStandard != soloNoArrows && soloStandard != partyStandard
      requires soloOneSaber != soloNoArrows && soloOneSaber != partyStandard && soloNoArrows != partyStandard
      requires forall m :: Collection(m).levelsList == Lift(builtIns(m))
      modifies Lists()
      ensures forall m :: Collection(m).levelsList == Lift(builtIns(m)) + Dist(customLevels, m)
    {
      var i := 0;
      while i < |customLevels|
        invariant 0 <= i <= |customLevels| && ListsHold(customLevels[..i])
        modifies Lists()
      {
        PublishStep(i);
        i := i + 1;
      }
      assert customLevels[..i] == customLevels;
    }

    /** Each mode's list is its built-in levels followed by its share of `levels`. */
    ghost predicate ListsHold(levels: seq<CustomLevelSO>)
      reads Lists(), levels
    {
      forall m :: Collection(m).levelsList == Lift(builtIns(m)) + Dist(levels, m)
    }

    /** The add loop's body for the `i`th loaded level. */
    method PublishStep(i: nat)
      requires soloStandard != soloOneSaber && soloStandard != soloNoArrows && soloStandard != partyStandard
      requires soloOneSaber != soloNoArrows && soloOneSaber != partyStandard && soloNoArrows != partyStandard
      requires i < |customLevels| && ListsHold(customLevels[..i])
      modifies Lists()
      ensures ListsHold(customLevels[..i + 1])
    {
      assert soloStandard.levelsList == Lift(builtIns(SoloStandard)) + Dist(customLevels[..i], SoloStandard);
      assert soloOneSaber.levelsList == Lift(builtIns(SoloOneSaber)) + Dist(customLevels[..i], SoloOneSaber);
      assert soloNoArrows.levelsList == Lift(builtIns(SoloNoArrows)) + Dist(customLevels[..i], SoloNoArrows);
      assert partyStandard.levelsList == Lift(builtIns(PartyStandard)) + Dist(customLevels[..i], PartyStandard);
      DistGrow(customLevels, i, builtIns(SoloStandard), SoloStandard);
      DistGrow(customLevels, i, builtIns(SoloOneSaber), SoloOneSaber);
      DistGrow(customLevels, i, builtIns(SoloNoArrows), SoloNoArrows);
      DistGrow(customLevels, i, builtIns(PartyStandard), PartyStandard);
      AddToLists(customLevels[i]);
      forall m ensures Collection(m).levelsList == Lift(builtIns(m)) + Dist(customLevels[..i + 1], m) {
        match m
        case SoloStandard =>
        case SoloOneSaber =>
        case SoloNoArrows =>
        case PartyStandard =>
      }
    }

    /** One step of the add loop: the level joins the list of every mode its
        characteristic goes to. */
    method AddToLists(level: CustomLevelSO)
      requires soloStandard != soloOneSaber && soloStandard != soloNoArrows && soloStandard != partyStandard
      requires soloOneSaber != soloNoArrows && soloOneSaber != partyStandard && soloNoArrows != partyStandard
      modifies Lists()
      ensures soloStandard.levelsList ==
        old(soloStandard.levelsList) + (if Goes(level.characteristic, SoloStandard) then [Custom(level)] else [])
      ensures soloOneSaber.levelsList ==
        old(soloOneSaber.levelsList) + (if Goes(level.characteristic, SoloOneSaber) then [Custom(level)] else [])
      ensures soloNoArrows.levelsList ==
        old(soloNoArrows.levelsList) + (if Goes(level.characteristic, SoloNoArrows) then [Custom(level)] else [])
      ensures partyStandard.levelsList ==
        old(partyStandard.levelsList) + (if Goes(level.characteristic, PartyStandard) then [Custom(level)] else [])
    {
      match level.characteristic {
        case Standard =>
          soloStandard.Add(Custom(level));
          partyStandard.Add(Custom(level));
        case NoArrows =>
          soloNoArrows.Add(Custom(level));
        case OneSaber =>
          soloOneSaber.Add(Custom(level));
      }
    }

    /** The completion callback of the current pass: the pass's levels join
        the loaded ones, all are sorted by song name and published to the
        lists, and loading is over. */
    method Complete()
      requires Valid() && !published && Finish(pass) !in queue
      modifies this, Lists()
      ensures Valid() && published
      ensures customLevels == old(SortLevels(customLevels + passLevels))
      ensures forall m :: Collection(m).levelsList == Lift(builtIns(m)) + Dist(customLevels, m)
      ensures isLoaded && !isLoading && loadingProgress == Progress(1, 1) && !hasTask
      ensures queue == old(queue) && pass == old(pass) && passLevels == old(passLevels)
      ensures loadingCanceled == old(loadingCanceled)
    {
      Merge();
      PublishAll();
    }

    /** The rest of the completion callback: the add loop, after which the
        lists hold the loaded levels, and the end of loading. */
    method PublishAll()
      requires Valid() && !published && Finish(pass) !in queue
      modifies Lists(), this`published, this`isLoaded, this`isLoading, this`loadingProgress, this`hasTask
      ensures Valid() && published
      ensures forall m :: Collection(m).levelsList == Lift(builtIns(m)) + Dist(customLevels, m)
      ensures isLoaded && !isLoading && loadingProgress == Progress(1, 1) && !hasTask
    {
      isLoaded, isLoading := true, false;
      loadingProgress := Progress(1, 1);
      hasTask := false;
      published := true;
      Publish();
    }

    /** `customLevels.AddRange(levels)` followed by the sort. */
    method Merge()
      requires Valid() && !published
      modifies this`customLevels
      ensures Valid() && customLevels == old(SortLevels(customLevels + passLevels))
    {
      var all := customLevels + passLevels;
      customLevels := SortLevels(all);
      forall x | x in customLevels
        ensures x in levelPool.used && x.levelInfo != null
      {
        assert x in multiset(all);
      }
    }

    /** The main thread's dispatcher runs the oldest queued delegate: a
        `LoadSong` delegate, or a pass's completion callback, which runs
        only for the current pass and only when loading was not canceled
        (a canceled task never calls back). */
    method DispatchOne(env: Env)
      requires Valid() && queue != []
      requires queue[0].LoadItem? && !loadingCanceled ==> FirstNamed(env.resources, DefaultEnvironment).Some?
      modifies this, Lists(), levelPool, dataPool, levelPool.free, dataPool.free
      modifies (if queue[0].LoadItem? then {queue[0].info} else {}), cache`sceneInfos, cache`coverImages
      ensures Valid()
      ensures queue == old(queue[1..]) && pass == old(pass) && loadingCanceled == old(loadingCanceled)
      ensures old(queue[0] == Finish(pass) && !loadingCanceled) ==>
        && published && isLoaded && !isLoading && !hasTask && loadingProgress == Progress(1, 1)
        && customLevels == old(SortLevels(customLevels + passLevels))
      ensures old(queue[0].Finish? && (queue[0].pass != pass || loadingCanceled)) ==>
        && customLevels == old(customLevels) && passLevels == old(passLevels) && published == old(published)
        && isLoaded == old(isLoaded) && isLoading == old(isLoading) && hasTask == old(hasTask)
        && loadingProgress == old(loadingProgress) && unchanged(Lists())
      ensures old(queue[0].LoadItem?) ==>
        && customLevels == old(customLevels) && published == old(published) && unchanged(Lists())
        && isLoaded == old(isLoaded) && isLoading == old(isLoading) && hasTask == old(hasTask)
        && (!loadingCanceled ==> loadingProgress == Progress(old(queue[0]).index, old(queue[0]).total))
        && (loadingCanceled ==>
              passLevels == old(passLevels) && loadingProgress == old(loadingProgress) && unchanged(levelPool, dataPool))
    {
      if queue[0].LoadItem? {
        ghost var loaded := DispatchLoad(env);
      } else {
        DispatchFinish();
      }
    }

    /** The worker takes the oldest queued item; the queue keeps its order,
        and a current pass's callback is never queued twice. */
    method TakeNext() returns (item: WorkItem)
      requires Valid() && queue != []
      modifies this`queue
      ensures Valid() && item == old(queue[0]) && queue == old(queue[1..])
      ensures item == Finish(pass) ==> !published && Finish(pass) !in queue
    {
      item := queue[0];
      QueueOrderedPop(queue, pass);
      queue := queue[1..];
    }

    /** A queued level-loading delegate, taken and run by the worker. */
    method DispatchLoad(env: Env) returns (ghost loaded: seq<CustomLevelSO>)
      requires Valid() && queue != [] && queue[0].LoadItem?
      requires !loadingCanceled ==> FirstNamed(env.resources, DefaultEnvironment).Some?
      modifies this, levelPool, dataPool, levelPool.free, dataPool.free
      modifies queue[0].info, cache`sceneInfos, cache`coverImages
      ensures Valid()
      ensures queue == old(queue[1..]) && pass == old(pass) && loadingCanceled == old(loadingCanceled)
      ensures customLevels == old(customLevels) && published == old(published) && unchanged(Lists())
      ensures isLoaded == old(isLoaded) && isLoading == old(isLoading) && hasTask == old(hasTask)
      ensures !loadingCanceled ==>
        && loadingProgress == Progress(old(queue[0]).index, old(queue[0]).total)
        && passLevels == old(passLevels) + (if old(queue[0]).pass == pass then loaded else [])
      ensures loadingCanceled ==>
        passLevels == old(passLevels) && loadingProgress == old(loadingProgress) && unchanged(levelPool, dataPool)
      ensures var info := old(queue[0]).info;
        !loadingCanceled && Combine(info.levelPath, InfoFileName) !in env.fs ==> loaded == []
      ensures var info := old(queue[0]).info;
        var sets := old(info.difficultyBeatmapSets);
        !loadingCanceled && Combine(info.levelPath, InfoFileName) in env.fs ==>
          SongLoaded(loaded, info, FillJson(env.fs, info.levelPath, sets),
                     Stamp(LevelId(env.sha1, env.fs, info.levelPath, sets),
                           ResolveScene(old(cache.sceneInfos), env.resources, info.environmentName)))
    {
      var item := TakeNext();
      loaded := RunItem(item, env);
    }

    /** A pass's completion callback taken from the queue and run: it acts
        only for the current pass and only when loading was not canceled. */
    method DispatchFinish()
      requires Valid() && queue != [] && queue[0].Finish?
      modifies this, Lists()
      ensures Valid()
      ensures queue == old(queue[1..]) && pass == old(pass) && loadingCanceled == old(loadingCanceled)
      ensures old(queue[0] == Finish(pass) && !loadingCanceled) ==>
        && published && isLoaded && !isLoading && !hasTask && loadingProgress == Progress(1, 1)
        && customLevels == old(SortLevels(customLevels + passLevels))
      ensures old(queue[0] != Finish(pass) || loadingCanceled) ==>
        && customLevels == old(customLevels) && passLevels == old(passLevels) && published == old(published)
        && isLoaded == old(isLoaded) && isLoading == old(isLoading) && hasTask == old(hasTask)
        && loadingProgress == old(loadingProgress) && unchanged(Lists())
    {
      var item := TakeNext();
      if item == Finish(pass) && !loadingCanceled {
        Complete();
      }
    }
  }
}
