/** `CustomLevelSO`: one playable level built from a manifest for one
    characteristic, with the process-wide caches its methods share (scene
    infos, decoded audio clips and cover sprites, all keyed and append-only). */
module CustomLevel {
  import opened Host
  import opened LevelInfo

  /** `CustomLevelSO.Characteristic`. */
  datatype Characteristic = Standard | NoArrows | OneSaber

  /** `Enum.TryParse<Characteristic>` on a declared member name. */
  function ParseCharacteristic(name: string): (c: Option<Characteristic>)
    ensures c == Some(Standard) <==> name == "Standard"
    ensures c == Some(NoArrows) <==> name == "NoArrows"
    ensures c == Some(OneSaber) <==> name == "OneSaber"
  {
    if name == "Standard" then Some(Standard)
    else if name == "NoArrows" then Some(NoArrows)
    else if name == "OneSaber" then Some(OneSaber)
    else None
  }

  /** The game's `LevelDifficulty`. */
  datatype LevelDifficulty = Easy | Normal | Hard | Expert | ExpertPlus

  /** `Enum.TryParse<LevelDifficulty>` on a declared member name. */
  function ParseDifficulty(name: string): (d: Option<LevelDifficulty>)
    ensures d.Some? <==> name in {"Easy", "Normal", "Hard", "Expert", "ExpertPlus"}
  {
    if name == "Easy" then Some(Easy)
    else if name == "Normal" then Some(Normal)
    else if name == "Hard" then Some(Hard)
    else if name == "Expert" then Some(Expert)
    else if name == "ExpertPlus" then Some(ExpertPlus)
    else None
  }

  /** Unity objects the level refers to, as opaque handles. */
  datatype SceneInfo = SceneInfo(sceneName: string, handle: nat)
  datatype Sprite = Sprite(handle: nat)
  datatype AudioClip = AudioClip(handle: nat)
  datatype AudioType = OggVorbis | UnknownAudio

  const DefaultEnvironment: string := "DefaultEnvironment"
  const NoScene: SceneInfo := SceneInfo("", 0)

  /** `FirstOrDefault(x => x.sceneName == name)`. */
  function FirstNamed(scenes: seq<SceneInfo>, name: string): (r: Option<SceneInfo>)
    ensures r.Some? <==> exists i :: 0 <= i < |scenes| && scenes[i].sceneName == name
    ensures r.Some? ==> r.value in scenes && r.value.sceneName == name
  {
    if scenes == [] then None
    else if scenes[0].sceneName == name then Some(scenes[0])
    else FirstNamed(scenes[1..], name)
  }

  /** The default scene can be found, in the cache or among the loaded scene
      infos; otherwise an unknown environment name makes `GetSceneInfo` recurse forever. */
  predicate DefaultFindable(cache: seq<SceneInfo>, resources: seq<SceneInfo>)
  {
    FirstNamed(cache, DefaultEnvironment).Some? || FirstNamed(resources, DefaultEnvironment).Some?
  }

  /** The scene info `GetSceneInfo(name)` answers. */
  function ResolveScene(cache: seq<SceneInfo>, resources: seq<SceneInfo>, name: string): SceneInfo
    requires DefaultFindable(cache, resources)
    decreases if name == DefaultEnvironment then 0 else 1
  {
    var hit := FirstNamed(cache, name);
    if hit.Some? then hit.value
    else
      var found := FirstNamed(resources, name);
      if found.Some? then found.value
      else if name == DefaultEnvironment then assert false; NoScene
      else ResolveScene(cache, resources, DefaultEnvironment)
  }

  /** The scene cache after `GetSceneInfo(name)`. */
  function SceneCacheAfter(cache: seq<SceneInfo>, resources: seq<SceneInfo>, name: string): seq<SceneInfo>
    requires DefaultFindable(cache, resources)
    decreases if name == DefaultEnvironment then 0 else 1
  {
    if FirstNamed(cache, name).Some? then cache
    else
      var found := FirstNamed(resources, name);
      if found.Some? then cache + [found.value]
      else if name == DefaultEnvironment then assert false; cache
      else SceneCacheAfter(cache, resources, DefaultEnvironment)
  }

  /** `b` holds every entry of `a` unchanged. */
  ghost predicate Extends<K, V>(a: map<K, V>, b: map<K, V>)
  {
    forall k :: k in a ==> k in b && b[k] == a[k]
  }

  /** The static members of `CustomLevelSO`: scene infos found so far, and
      the decoded audio clips and cover sprites by file path. */
  class MediaCache {
    var sceneInfos: seq<SceneInfo>
    var audioClips: map<string, AudioClip>
    var coverImages: map<string, Sprite>

    constructor ()
      ensures sceneInfos == [] && audioClips == map[] && coverImages == map[]
    {
      sceneInfos, audioClips, coverImages := [], map[], map[];
    }

    /** Answers from the cache when it can; otherwise searches the loaded
        scene infos and caches what it found, or falls back to the default. */
    method GetSceneInfo(resources: seq<SceneInfo>, name: string) returns (sceneInfo: SceneInfo)
      requires DefaultFindable(sceneInfos, resources)
      modifies this`sceneInfos
      ensures sceneInfo == ResolveScene(old(sceneInfos), resources, name)
      ensures sceneInfos == SceneCacheAfter(old(sceneInfos), resources, name)
      decreases if name == DefaultEnvironment then 0 else 1
    {
      var hit := FirstNamed(sceneInfos, name);
      if hit.Some? {
        return hit.value;
      }
      var found := FirstNamed(resources, name);
      if found.None? {
        if name == DefaultEnvironment {
          assert false;
        }
        sceneInfo := GetSceneInfo(resources, DefaultEnvironment);
        return;
      }
      sceneInfos := sceneInfos + [found.value];
      sceneInfo := found.value;
    }
  }

  /** The cache never forgets: it grows by at most the one scene info returned. */
  lemma {:induction false} SceneCacheGrows(cache: seq<SceneInfo>, resources: seq<SceneInfo>, name: string)
    requires DefaultFindable(cache, resources)
    ensures var after := SceneCacheAfter(cache, resources, name);
      after == cache || after == cache + [ResolveScene(cache, resources, name)]
    ensures ResolveScene(cache, resources, name) in SceneCacheAfter(cache, resources, name)
    decreases if name == DefaultEnvironment then 0 else 1
  {
    if FirstNamed(cache, name).None? && FirstNamed(resources, name).None? && name != DefaultEnvironment {
      SceneCacheGrows(cache, resources, DefaultEnvironment);
    }
  }

  /** The answer is a scene of the asked name when one is known, and the
      default scene otherwise; a cache hit does not depend on the loaded scenes. */
  lemma ResolveSceneName(cache: seq<SceneInfo>, resources: seq<SceneInfo>, name: string)
    requires DefaultFindable(cache, resources)
    ensures var known := FirstNamed(cache, name).Some? || FirstNamed(resources, name).Some?;
      ResolveScene(cache, resources, name).sceneName == (if known then name else DefaultEnvironment)
    ensures FirstNamed(cache, name).Some? ==>
      ResolveScene(cache, resources, name) == FirstNamed(cache, name).value
  {
  }

  /** The first scene of a name in `xs + ys` is the first in `xs`, or else the first in `ys`. */
  lemma {:induction false} FirstNamedAppend(xs: seq<SceneInfo>, ys: seq<SceneInfo>, name: string)
    ensures FirstNamed(xs + ys, name) == if FirstNamed(xs, name).Some? then FirstNamed(xs, name) else FirstNamed(ys, name)
  {
    if xs != [] {
      assert (xs + ys)[1..] == xs[1..] + ys;
      FirstNamedAppend(xs[1..], ys, name);
    } else {
      assert xs + ys == ys;
    }
  }

  /** Asking again for the same name after `GetSceneInfo` answers the same
      scene from the cache and leaves the cache as it is, so every level of
      a song gets the scene the first one got. */
  lemma {:induction false} SceneCacheSettles(cache: seq<SceneInfo>, resources: seq<SceneInfo>, name: string)
    requires DefaultFindable(cache, resources)
    ensures var after := SceneCacheAfter(cache, resources, name);
      && DefaultFindable(after, resources)
      && ResolveScene(after, resources, name) == ResolveScene(cache, resources, name)
      && SceneCacheAfter(after, resources, name) == after
    decreases if name == DefaultEnvironment then 0 else 1
  {
    if FirstNamed(cache, name).Some? {
      return;
    }
    var found := FirstNamed(resources, name);
    if found.Some? {
      FirstNamedAppend(cache, [found.value], name);
      FirstNamedAppend(cache, [found.value], DefaultEnvironment);
      return;
    }
    var after := SceneCacheAfter(cache, resources, DefaultEnvironment);
    SceneCacheSettles(cache, resources, DefaultEnvironment);
    SceneCacheGrows(cache, resources, DefaultEnvironment);
    ResolveSceneName(cache, resources, DefaultEnvironment);
    if after != cache {
      FirstNamedAppend(cache, [ResolveScene(cache, resources, DefaultEnvironment)], name);
    }
  }

  /** The sprite `LoadCoverImage` finds for the cover file `path`: the cached
      one, else the decoded file; none when the file is missing or does not decode. */
  function CoverFound(cached: map<string, Sprite>, fs: FileSystem, decodeImage: seq<byte> -> Option<Sprite>,
                      path: string): (r: Option<Sprite>)
    ensures path in cached ==> r == Some(cached[path])
    ensures path !in cached && path !in fs ==> r == None
  {
    if path in cached then Some(cached[path])
    else if path in fs then decodeImage(fs[path].bytes)
    else None
  }

  /** The cover cache after `LoadCoverImage` for `path`: a sprite decoded
      from the file is added; a hit or a failure leaves it as it was. */
  function CoverCacheAfter(cached: map<string, Sprite>, fs: FileSystem, decodeImage: seq<byte> -> Option<Sprite>,
                           path: string): (r: map<string, Sprite>)
    ensures r.Keys == cached.Keys || r.Keys == cached.Keys + {path}
    ensures forall q :: q in cached ==> q in r && r[q] == cached[q]
  {
    if path !in cached && path in fs && decodeImage(fs[path].bytes).Some? then cached[path := decodeImage(fs[path].bytes).value]
    else cached
  }

  /** The cover a level shows after `LoadCoverImage`: the sprite found, else the one it had. */
  function CoverAfter(found: Option<Sprite>, prev: Option<Sprite>): (r: Option<Sprite>)
    ensures r.Some? <==> found.Some? || prev.Some?
  {
    if found.Some? then found else prev
  }

  /** After one load the cover is cached whenever it was found: a second load
      of the same file finds the same sprite and changes the cache no more;
      when nothing was found the cache is as before. */
  lemma CoverCacheSettles(cached: map<string, Sprite>, fs: FileSystem, decodeImage: seq<byte> -> Option<Sprite>, path: string)
    ensures var after := CoverCacheAfter(cached, fs, decodeImage, path);
      && CoverFound(after, fs, decodeImage, path) == CoverFound(cached, fs, decodeImage, path)
      && CoverCacheAfter(after, fs, decodeImage, path) == after
      && (CoverFound(cached, fs, decodeImage, path).Some? <==> path in after)
      && (CoverFound(cached, fs, decodeImage, path).None? ==> after == cached)
  {
  }

  /** A pooled `CustomBeatmapDataSO`: the beatmap's JSON text. */
  class CustomBeatmapData {
    var jsonData: string

    constructor ()
      ensures jsonData == ""
    {
      jsonData := "";
    }

    method SetJsonData(text: string)
      modifies this
      ensures jsonData == text
    {
      jsonData := text;
    }
  }

  /** `StandardLevelSO.DifficultyBeatmap`: one playable difficulty of a level. */
  datatype Beatmap = Beatmap(
    level: CustomLevelSO,
    difficulty: LevelDifficulty,
    difficultyRank: int,
    noteJumpMovementSpeed: Float,
    beatmapData: CustomBeatmapData)

  class CustomLevelSO {
    var levelInfo: CustomLevelInfo?
    var characteristic: Characteristic
    var levelID: string
    var songName: string
    var songSubName: string
    var songAuthorName: string
    var beatsPerMinute: Float
    var songTimeOffset: Float
    var shuffle: Float
    var shufflePeriod: Float
    var previewStartTime: Float
    var previewDuration: Float
    var environmentSceneInfo: Option<SceneInfo>
    var audioClip: Option<AudioClip>
    var coverImage: Option<Sprite>
    var difficultyBeatmaps: seq<Beatmap>
    var isAudioClipLoading: bool

    /** `ScriptableObject.CreateInstance`: every field at its default. */
    constructor ()
      ensures levelInfo == null && characteristic == Standard
      ensures audioClip == None && coverImage == None && environmentSceneInfo == None
      ensures difficultyBeatmaps == [] && !isAudioClipLoading
    {
      levelInfo := null;
      characteristic := Standard;
      levelID, songName, songSubName, songAuthorName := "", "", "", "";
      beatsPerMinute, songTimeOffset, shuffle, shufflePeriod := Float(0), Float(0), Float(0), Float(0);
      previewStartTime, previewDuration := Float(0), Float(0);
      environmentSceneInfo, audioClip, coverImage := None, None, None;
      difficultyBeatmaps := [];
      isAudioClipLoading := false;
    }

    /** The fields `Init` copies from the manifest: the name, subname and
        timings verbatim, and the author shown as "song author [level author]". */
    ghost predicate CopiedFrom(info: CustomLevelInfo)
      reads this
    {
      && songName == info.songName && songSubName == info.songSubName
      && songAuthorName == info.songAuthorName + " [" + info.levelAuthorName + "]"
      && beatsPerMinute == info.beatsPerMinute && songTimeOffset == info.songTimeOffset
      && shuffle == info.shuffle && shufflePeriod == info.shufflePeriod
      && previewStartTime == info.previewStartTime && previewDuration == info.previewDuration
    }

    /** The fields `Init` sets once the level id has been computed. */
    ghost function InitFields(): (string, string, string, string, Float, Float, Float, Float, Float, Float, Option<SceneInfo>)
      reads this
    {
      (levelID, songName, songSubName, songAuthorName, beatsPerMinute, songTimeOffset, shuffle, shufflePeriod,
       previewStartTime, previewDuration, environmentSceneInfo)
    }

    /** Copies the manifest's fields for one characteristic. The level id is
        recomputed from the files, which also refills the beatmap texts. The
        audio clip, cover, beatmaps and loading flag are not touched. When the
        manifest file is gone the id computation throws after the info and
        characteristic are stored; `ok` is false for that exception. */
    method Init(info: CustomLevelInfo, c: Characteristic, fs: FileSystem, sha1: seq<byte> -> seq<byte>,
                cache: MediaCache, resources: seq<SceneInfo>) returns (ok: bool)
      requires DefaultFindable(cache.sceneInfos, resources)
      modifies this`levelInfo, this`characteristic, this`levelID, this`songName, this`songSubName
      modifies this`songAuthorName, this`beatsPerMinute, this`songTimeOffset, this`shuffle
      modifies this`shufflePeriod, this`previewStartTime, this`previewDuration, this`environmentSceneInfo
      modifies info`difficultyBeatmapSets, cache`sceneInfos
      ensures levelInfo == info && characteristic == c
      ensures ok <==> Combine(info.levelPath, InfoFileName) in fs
      ensures !ok ==> info.difficultyBeatmapSets == old(info.difficultyBeatmapSets) && cache.sceneInfos == old(cache.sceneInfos)
      ensures !ok ==> InitFields() == old(InitFields())
      ensures ok ==> CopiedFrom(info)
      ensures ok ==> levelID == LevelId(sha1, fs, info.levelPath, old(info.difficultyBeatmapSets))
      ensures ok ==> info.difficultyBeatmapSets == FillJson(fs, info.levelPath, old(info.difficultyBeatmapSets))
      ensures ok ==> environmentSceneInfo == Some(ResolveScene(old(cache.sceneInfos), resources, info.environmentName))
      ensures ok ==> cache.sceneInfos == SceneCacheAfter(old(cache.sceneInfos), resources, info.environmentName)
    {
      levelInfo := info;
      characteristic := c;
      var id := info.GetLevelData(fs, sha1);
      if id.None? {
        return false;
      }
      var sceneInfo := cache.GetSceneInfo(resources, info.environmentName);
      levelID := id.value;
      CopyFields(info);
      environmentSceneInfo := Some(sceneInfo);
      ok := true;
    }

    method CopyFields(info: CustomLevelInfo)
      modifies this`songName, this`songSubName, this`songAuthorName, this`beatsPerMinute
      modifies this`songTimeOffset, this`shuffle, this`shufflePeriod, this`previewStartTime, this`previewDuration
      ensures CopiedFrom(info)
    {
      songName := info.songName;
      songSubName := info.songSubName;
      songAuthorName := info.songAuthorName + " [" + info.levelAuthorName + "]";
      beatsPerMinute := info.beatsPerMinute;
      songTimeOffset := info.songTimeOffset;
      shuffle := info.shuffle;
      shufflePeriod := info.shufflePeriod;
      previewStartTime := info.previewStartTime;
      previewDuration := info.previewDuration;
    }

    method SetAudioClip(clip: AudioClip)
      modifies this`audioClip
      ensures audioClip == Some(clip)
    {
      audioClip := Some(clip);
    }

    /** Takes the cover from the cache, or decodes the cover file and caches
        the sprite. A missing or undecodable file leaves the cover as it was. */
    method LoadCoverImage(fs: FileSystem, decodeImage: seq<byte> -> Option<Sprite>, cache: MediaCache)
      requires levelInfo != null
      modifies this`coverImage, cache`coverImages
      ensures var path := Combine(levelInfo.levelPath, levelInfo.coverImageFilename);
        var found := CoverFound(old(cache.coverImages), fs, decodeImage, path);
        && cache.coverImages == CoverCacheAfter(old(cache.coverImages), fs, decodeImage, path)
        && coverImage == CoverAfter(found, old(coverImage))
    {
      var coverImagePath := Combine(levelInfo.levelPath, levelInfo.coverImageFilename);
      var sprite: Sprite;
      if coverImagePath !in cache.coverImages {
        if coverImagePath !in fs {
          return;
        }
        var texture := decodeImage(fs[coverImagePath].bytes);
        if texture.None? {
          return;
        }
        sprite := texture.value;
        cache.coverImages := cache.coverImages[coverImagePath := sprite];
      } else {
        sprite := cache.coverImages[coverImagePath];
      }
      coverImage := Some(sprite);
    }

    /** The audio type `WWW.GetAudioClip` is asked for. */
    static function AudioTypeOf(songFilename: string): AudioType
    {
      if Contains(songFilename, ".egg") then OggVorbis else UnknownAudio
    }

    /** Takes the clip from the cache, or decodes the song file and caches it;
        then runs the caller's callback and clears the loading flag.
        `loadingAtCallback` is the flag's value while the callback runs. */
    method LoadAudioClip(decodeAudio: (string, AudioType) -> AudioClip, cache: MediaCache)
      returns (loadingAtCallback: bool)
      requires levelInfo != null
      modifies this`audioClip, this`isAudioClipLoading, cache`audioClips
      ensures var path := Combine(levelInfo.levelPath, levelInfo.songFilename);
        && (path in old(cache.audioClips) ==>
              cache.audioClips == old(cache.audioClips) && loadingAtCallback == old(isAudioClipLoading))
        && (path !in old(cache.audioClips) ==>
              cache.audioClips == old(cache.audioClips)[path := decodeAudio(path, AudioTypeOf(levelInfo.songFilename))]
              && loadingAtCallback)
        && path in cache.audioClips && audioClip == Some(cache.audioClips[path])
      ensures !isAudioClipLoading
    {
      var audioClipPath := Combine(levelInfo.levelPath, levelInfo.songFilename);
      var clip: AudioClip;
      if audioClipPath !in cache.audioClips {
        isAudioClipLoading := true;
        clip := decodeAudio(audioClipPath, AudioTypeOf(levelInfo.songFilename));
        cache.audioClips := cache.audioClips[audioClipPath := clip];
      } else {
        clip := cache.audioClips[audioClipPath];
      }
      audioClip := Some(clip);
      loadingAtCallback := isAudioClipLoading;
      isAudioClipLoading := false;
    }

    /** Replaces the beatmap list wholesale. */
    method SetDifficultyBeatmaps(beatmaps: seq<Beatmap>)
      modifies this`difficultyBeatmaps
      ensures difficultyBeatmaps == beatmaps
    {
      difficultyBeatmaps := beatmaps;
    }

    /** `IResetableSO.Reset`: forgets the audio clip, and nothing else. */
    method Reset()
      modifies this`audioClip
      ensures audioClip == None
    {
      audioClip := None;
    }
  }
}
