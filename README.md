# LegacyCore custom-level loader, modelled in Dafny

This project models the part of LegacyCore that turns the song folders under
`Beat Saber_Data\CustomLevels` into playable levels. It also models how those
levels are published to the game's per-mode level lists.

- `CustomLevelInfo` is the deserialised `info.dat` manifest. `GetLevelData`
  hashes the manifest together with every existing beatmap file into a
  `custom_level_<SHA-1 hex>` id. Along the way it stores each beatmap file's
  text in its entry.
- `CustomLevelSO` is one playable level for one characteristic (Standard,
  NoArrows or OneSaber). Its static caches of scene infos, audio clips and
  cover sprites form the `MediaCache` class.
- `CustomLevelCollectionSO` is the mutable level list behind one gameplay mode.
  `CustomLevelCollectionsForGameplayModes` is the table the menus ask for a
  mode's levels.
- `Loader` holds the reload state machine:
  - `ReloadLevels` takes the published levels out of the four lists.
  - `RetrieveLevels` resets the pools on a full reload. Its background pass
    scans the folders, skips known paths, unreadable manifests and duplicate
    ids, and queues one `LoadSong` delegate per new level, followed by the
    completion callback.
  - `LoadSong` turns one manifest into at most one level per characteristic.
  - The completion callback merges, sorts by song name and publishes.
  - A scene change cancels the pass.

The background thread and the main-thread dispatcher are modelled as one
queue of work items. A reload runs the whole scan at once and appends its
items and then its completion item. `DispatchOne` runs the item at the head.
Files, the SHA-1 digest, the JSON parser, the folder listing, the loaded scene
infos and the image and audio decoders are parameters (`Env` and friends).

Files:

- `host.dfy`: `Option`, bytes, the file system as a map, `Path.Combine`, `Distinct`.
- `hashing.dfy`: `CreateHash` (`BitConverter.ToString` followed by dash removal).
- `level_info.dfy`: `CustomLevelInfo`, `GetLevelData`, the content id.
- `custom_level.dfy`: `CustomLevelSO`, `CustomBeatmapDataSO`, and the static caches.
- `pools.dfy`: the two `PoolSO` instances.
- `collections.dfy`: the level lists and the mode table.
- `ordering.dfy`: `OrderBy` on song names, as a stable sort.
- `assembly.dfy`: what `LoadSong` builds from a manifest, as values.
- `scan.dfy`: which folders a pass visits and which it queues, as values.
- `loader.dfy`: the `Loader` class.

## Model

| member | source | states |
|---|---|---|
| Hashing.CreateHash | LegacyCore-Shared/Custom/CustomLevelInfo.cs:62-63 | the hash is the digest written as two upper-case hex digits per byte with no separator: it equals the reference `Hex` of the digest, has two characters per digest byte, and every character is 0-9 or A-F |
| Hashing.DashesRemoved | LegacyCore-Shared/Custom/CustomLevelInfo.cs:63 | removing the dashes from `BitConverter.ToString(d)` leaves exactly the dash-free hex form of `d` |
| Hashing.RemoveDashesAppend | LegacyCore-Shared/Custom/CustomLevelInfo.cs:63 | `Replace("-", "")` distributes over concatenation |
| Hashing.HexLength | LegacyCore-Shared/Custom/CustomLevelInfo.cs:62-63 | the hex form has two characters per byte |
| Hashing.HexCharacters | LegacyCore-Shared/Custom/CustomLevelInfo.cs:62-63 | every character of the hex form is a hex digit |
| Hashing.HexPairAt | LegacyCore-Shared/Custom/CustomLevelInfo.cs:62-63 | characters 2k and 2k+1 of the hex form are the two digits of digest byte k |
| Hashing.UnhexHex | LegacyCore-Shared/Custom/CustomLevelInfo.cs:62-63 | decoding the hex form gives the digest back (round trip) |
| Hashing.Sha1HashLength | LegacyCore-Shared/Custom/CustomLevelInfo.cs:62-63 | with 20-byte SHA-1 digests the hash is 40 characters |
| Hashing.HashDeterminesDigest | LegacyCore-Shared/Custom/CustomLevelInfo.cs:62-63 | two hashes are equal exactly when the digests are equal |
| LevelInfo.DeserializedSets | LegacyCore-Shared/Custom/CustomLevelInfo.cs:38-60 | a fresh manifest's sets keep every set's characteristic name and every entry's fields, with no JSON text yet |
| LevelInfo.LevelId | LegacyCore-Shared/Custom/CustomLevelInfo.cs:84 | the id is `custom_level_` followed by the hex form of the digest of the hash input |
| LevelInfo.CustomLevelInfo.constructor | LegacyCore-Shared/Loader.cs:148-150 | every manifest field is the parsed manifest's, `levelPath` is the folder, and the sets are the deserialised ones |
| LevelInfo.CustomLevelInfo.GetLevelData | LegacyCore-Shared/Custom/CustomLevelInfo.cs:65-85 | a missing `info.dat` throws before anything changes; otherwise the id is `LevelId` of the sets as they were, and the sets become `FillJson` of them |
| LevelInfo.ReadBeatmaps | LegacyCore-Shared/Custom/CustomLevelInfo.cs:72-81 | the inner loop gathers the bytes of the existing beatmap files in order, and fills exactly their entries' texts |
| LevelInfo.LevelIdIgnoresFolder | LegacyCore-Shared/Custom/CustomLevelInfo.cs:65-85 | two folders with the same files get the same id: the id depends on contents, not on the folder's name |
| LevelInfo.FillJsonIgnoresFolder | LegacyCore-Shared/Custom/CustomLevelInfo.cs:74-79 | two folders with the same files get the same beatmap texts |
| LevelInfo.FillJsonEffect | LegacyCore-Shared/Custom/CustomLevelInfo.cs:74-80 | an entry whose file exists gets that file's text; every other field, and every entry without a file, is unchanged |
| LevelInfo.FillJsonIdempotent | LegacyCore-Shared/Custom/CustomLevelInfo.cs:74-80 | a second `GetLevelData` writes the same texts again |
| LevelInfo.SetsBytesIgnoreJson | LegacyCore-Shared/Custom/CustomLevelInfo.cs:72-78 | the hashed bytes do not read the stored texts |
| LevelInfo.LevelIdStable | LegacyCore-Shared/Custom/CustomLevelSO.cs:35 | computing the id again after a first `GetLevelData`, as `Init` does, gives the same id |
| LevelInfo.HashInputInDeclaredOrder | LegacyCore-Shared/Custom/CustomLevelInfo.cs:67-82 | the hash input is the manifest's bytes, then the bytes of every existing beatmap file, sets first and then entries, in declared order |
| CustomLevel.ParseCharacteristic | LegacyCore-Shared/Loader.cs:171 | the model's `TryParse` of a characteristic accepts exactly the three declared member names, and gives the member of that name |
| CustomLevel.ParseDifficulty | LegacyCore-Shared/Loader.cs:207 | the model's `TryParse` of a difficulty accepts exactly the five declared member names |
| CustomLevel.FirstNamed | LegacyCore-Shared/Custom/CustomLevelSO.cs:50 | `FirstOrDefault` finds a scene info exactly when one of that name exists, and what it finds has that name |
| CustomLevel.MediaCache.GetSceneInfo | LegacyCore-Shared/Custom/CustomLevelSO.cs:48-60 | answers `ResolveScene` and leaves the cache at `SceneCacheAfter`: a cache hit first, then the loaded scenes (caching the find), else the default environment |
| CustomLevel.SceneCacheGrows | LegacyCore-Shared/Custom/CustomLevelSO.cs:50-58 | the scene cache never forgets, grows by at most one entry, and holds the answer afterwards |
| CustomLevel.SceneCacheSettles | LegacyCore-Shared/Custom/CustomLevelSO.cs:48-60 | after one lookup, looking the same name up again gives the same scene and leaves the cache as it is, so every level of a song gets one scene |
| CustomLevel.FirstNamedAppend | LegacyCore-Shared/Custom/CustomLevelSO.cs:50 | the first scene of a name in a grown cache is the one the old cache had, or else the first among the added scenes |
| CustomLevel.ResolveSceneName | LegacyCore-Shared/Custom/CustomLevelSO.cs:48-60 | the answer has the asked name when that scene is known and is the default scene otherwise; a cache hit wins over the loaded scenes |
| CustomLevel.CustomBeatmapData.SetJsonData | LegacyCore-Shared/Loader.cs:205 | the pooled beatmap data holds the given text |
| CustomLevel.CustomLevelSO.constructor | LegacyCore-Shared/Loader.cs:177 | a new pooled level starts with no info, no clip, no cover and no beatmaps |
| CustomLevel.CustomLevelSO.Init | LegacyCore-Shared/Custom/CustomLevelSO.cs:30-46 | stores info and characteristic first; fails exactly when `info.dat` is gone, and then nothing else changes; otherwise copies the manifest fields (author as "song [level author]"), sets the id, fills the texts and resolves the environment scene |
| CustomLevel.CustomLevelSO.CopyFields | LegacyCore-Shared/Custom/CustomLevelSO.cs:36-44 | name, subname, timings are the manifest's, and the author is "song author [level author]" |
| CustomLevel.CustomLevelSO.SetAudioClip | LegacyCore-Shared/Custom/CustomLevelSO.cs:109-110 | the level holds the given clip |
| CustomLevel.CustomLevelSO.LoadCoverImage | LegacyCore-Shared/Custom/CustomLevelSO.cs:112-136 | a cached sprite is reused; otherwise an existing, decodable cover file is decoded and cached; a missing or undecodable file leaves cover and cache unchanged |
| CustomLevel.CoverFound | LegacyCore-Shared/Custom/CustomLevelSO.cs:117-133 | the sprite for a cover path is the cached one when there is one, and none when the path is neither cached nor an existing file |
| CustomLevel.CoverCacheAfter | LegacyCore-Shared/Custom/CustomLevelSO.cs:117-130 | the cover cache only grows: every cached sprite stays, and at most the one path is added |
| CustomLevel.CoverCacheSettles | LegacyCore-Shared/Custom/CustomLevelSO.cs:112-136 | after one load, loading the same cover again finds the same sprite and leaves the cache as it is; the path is cached exactly when a sprite was found |
| CustomLevel.CustomLevelSO.LoadAudioClip | LegacyCore-Shared/Custom/CustomLevelSO.cs:70-107 | one run of the coroutine from start to end, with no other coroutine between its yields: a cached clip is reused; otherwise the file is decoded as Ogg when its name contains ".egg" and cached, with the loading flag set while the callback runs; the level holds the cached clip and the flag is clear at the end |
| CustomLevel.CustomLevelSO.SetDifficultyBeatmaps | LegacyCore-Shared/Custom/CustomLevelSO.cs:138-139 | the beatmap list is replaced wholesale |
| CustomLevel.CustomLevelSO.Reset | LegacyCore-Shared/Custom/CustomLevelSO.cs:141-142 | forgets the audio clip |
| Ordering.StrLeTotal | LegacyCore-Shared/Loader.cs:327 | any two song names are ordered one way or the other |
| Ordering.StrLeTransitive | LegacyCore-Shared/Loader.cs:327 | the name order is transitive |
| Ordering.StrLeAntisymmetric | LegacyCore-Shared/Loader.cs:327 | names ordered both ways are equal |
| Ordering.InsertMultiset | LegacyCore-Shared/Loader.cs:327 | one insertion step adds exactly the inserted item |
| Ordering.InsertSorted | LegacyCore-Shared/Loader.cs:327 | one insertion step keeps the list sorted |
| Ordering.SortByKeySortsAndPermutes | LegacyCore-Shared/Loader.cs:327 | `OrderBy` yields a list sorted by key that is a permutation of its input |
| Ordering.InsertWithKey | LegacyCore-Shared/Loader.cs:327 | an insertion puts the item after the items with the same key |
| Ordering.SortByKeyStable | LegacyCore-Shared/Loader.cs:327 | `OrderBy` is stable: items with equal keys keep their input order |
| Pools.LevelPool.constructor | LegacyCore-Shared/Loader.cs:36 | a new pool has nothing released and nothing handed out |
| Pools.LevelPool.Get | LegacyCore-Shared/Loader.cs:177 | hands out the first released level, or a new one when none is released, never one already handed out, and records it as handed out |
| Pools.LevelPool.ReturnAll | LegacyCore-Shared/Loader.cs:251 | every handed-out level is released again, after the ones already released |
| Pools.BeatmapDataPool.constructor | LegacyCore-Shared/Loader.cs:37 | a new pool has nothing released and nothing handed out |
| Pools.BeatmapDataPool.Get | LegacyCore-Shared/Loader.cs:204 | as `LevelPool.Get`, for beatmap data |
| Pools.BeatmapDataPool.ReturnAll | LegacyCore-Shared/Loader.cs:252 | as `LevelPool.ReturnAll`, for beatmap data |
| Collections.RemoveFirst | LegacyCore-Shared/Loader.cs:389-392 | `List.Remove` leaves a list without the level unchanged and shortens one with it by one |
| Collections.RemoveFirstSplit | LegacyCore-Shared/Loader.cs:389-392 | only the first occurrence goes; what comes before and after it stays in order |
| Collections.RemoveFirstMultiset | LegacyCore-Shared/Loader.cs:389-392 | removal takes exactly one copy of the level out, when there is one |
| Collections.RemoveFirstAfter | LegacyCore-Shared/Loader.cs:389-392 | a prefix without the level is left alone |
| Collections.CustomLevelCollectionSO.constructor | LegacyCore-Shared/Loader.cs:124 | a new collection has no list yet (modelled as the empty list; `levelsList` is null until `Init`) and no array |
| Collections.CustomLevelCollectionSO.Init | LegacyCore-Shared/Custom/CustomLevelCollectionSO.cs:9-10 | the list becomes a copy of the given levels, in order |
| Collections.CustomLevelCollectionSO.Add | LegacyCore-Shared/Loader.cs:334 | `levelsList.Add` appends the level |
| Collections.CustomLevelCollectionSO.Remove | LegacyCore-Shared/Loader.cs:389 | `levelsList.Remove` reports whether the level was listed and drops its first occurrence |
| Collections.FirstIndexOf | LegacyCore-Shared/Custom/CustomLevelCollectionsForGameplayModes.cs:10-12 | finds the first entry for the mode: it matches and none before it does, or no entry matches at all |
| Collections.LevelsForFirstMatch | LegacyCore-Shared/Custom/CustomLevelCollectionsForGameplayModes.cs:10-12 | entries after the first match for a mode never change its answer |
| Collections.CustomLevelCollectionsForGameplayModes.SetCollections | LegacyCore-Shared/Custom/CustomLevelCollectionsForGameplayModes.cs:5-6 | replaces the whole table |
| Collections.CustomLevelCollectionsForGameplayModes.GetLevels | LegacyCore-Shared/Custom/CustomLevelCollectionsForGameplayModes.cs:8-25 | answers from the first entry for the mode: a copy of the list for a custom entry over a custom collection, the collection's array otherwise, and null when no entry matches; the loop's answer is `LevelsFor` |
| Assembly.CharsMembership | LegacyCore-Shared/Loader.cs:169-181 | a level is drawn for a characteristic exactly when some set's name parses to it |
| Assembly.CharsDistinct | LegacyCore-Shared/Loader.cs:175-181 | at most one level per characteristic, so at most three per manifest |
| Assembly.ExpectedAppend | LegacyCore-Shared/Loader.cs:185-213 | later sets of a characteristic append their beatmaps after the earlier ones |
| Assembly.ExpectedNeedsSet | LegacyCore-Shared/Loader.cs:185-213 | a level's beatmaps come only from sets filed under its characteristic |
| Assembly.NonEmptyMembership | LegacyCore-Shared/Loader.cs:222-233 | a characteristic is kept exactly when it was drawn and has at least one beatmap |
| Assembly.NonEmptyDistinct | LegacyCore-Shared/Loader.cs:222-233 | the kept characteristics are distinct and no more than those drawn |
| Assembly.EmittedMembership | LegacyCore-Shared/Loader.cs:222-233 | a level is handed back for a characteristic exactly when it has at least one usable entry, once each |
| Assembly.NothingUsable | LegacyCore-Shared/Loader.cs:194-233 | with no entry that has text and a known difficulty, no level is handed back |
| Assembly.KeptBound | LegacyCore-Shared/Loader.cs:198-213 | a set yields no more beatmaps than the beatmap-data instances it draws |
| Assembly.DataDrawsBound | LegacyCore-Shared/Loader.cs:198-213 | a level's beatmaps never outnumber the beatmap data drawn for the manifest |
| Assembly.CharsIgnoreTexts | LegacyCore-Shared/Custom/CustomLevelSO.cs:35 | filling in the texts changes no characteristic name |
| Scan.Tagged | LegacyCore-Shared/Loader.cs:264-276 | every dir of a folder carries the folder's 1-based position |
| Scan.ListedAbortStops | LegacyCore-Shared/Loader.cs:261-323 | once a listing throws, no later folder is looked at |
| Scan.ListedCandidates | LegacyCore-Shared/Loader.cs:264-276 | every visited dir holds an `info.dat` of a listed folder and carries that folder's position |
| Scan.AcceptSkip | LegacyCore-Shared/Loader.cs:281-296 | a known path, an unreadable manifest or a repeated id adds nothing to the queue |
| Scan.AcceptTake | LegacyCore-Shared/Loader.cs:298-311 | any other dir is queued after everything before it |
| Scan.AcceptIdsDistinct | LegacyCore-Shared/Loader.cs:291-298 | within one pass no id is queued twice |
| Scan.AcceptSound | LegacyCore-Shared/Loader.cs:276-311 | every queued dir was visited and is not a known path, and its manifest and id are what reading it gives |
| Scan.AcceptComplete | LegacyCore-Shared/Loader.cs:276-311 | every visited, unknown, readable dir has its id queued: skipping only drops duplicates |
| LevelLoader.DistAppend | LegacyCore-Shared/Loader.cs:329-346 | publishing two runs of levels publishes the first and then the second |
| LevelLoader.DistMembership | LegacyCore-Shared/Loader.cs:331-345 | a mode lists a custom level exactly when it was published and its characteristic goes to that mode |
| LevelLoader.RemoveHead | LegacyCore-Shared/Loader.cs:387-393 | removing the first published level from a list leaves the game's levels and the rest of the published ones, in order |
| LevelLoader.RemovalSteps | LegacyCore-Shared/Loader.cs:387-393 | the removal loop leads each list step by step from the game's levels plus its published share to the game's levels alone |
| LevelLoader.QueueOrderedExtend | LegacyCore-Shared/Loader.cs:298-311 | a new pass appends its delegates and then its callback, keeping callbacks in pass order |
| LevelLoader.QueueOrderedPop | LegacyCore-Shared/Loader.cs:301-324 | running the oldest delegate keeps the queue ordered, and a callback is never queued twice |
| LevelLoader.SortLevels | LegacyCore-Shared/Loader.cs:327 | `OrderBy(songName)`: sorted by song name, stable, and a permutation of the levels |
| LevelLoader.ValuesMultiset | LegacyCore-Shared/Loader.cs:327 | reordering keyed levels reorders the levels alike |
| LevelLoader.SortLevelsFacts | LegacyCore-Shared/Loader.cs:327 | the sorted pairs are the keyed form of their levels, sorted, and a permutation of the input |
| LevelLoader.NewCollection | LegacyCore-Shared/Loader.cs:124-125 | a new list holding the game's own levels of a mode, in order |
| LevelLoader.CreateCustomCollections | LegacyCore-Shared/Loader.cs:120-141 | four distinct new lists, each holding its mode's game levels, and a new table answering each mode from its list |
| LevelLoader.GetCustomLevelInfo | LegacyCore-Shared/Loader.cs:143-159 | null when `info.dat` is missing or does not parse; otherwise a new manifest object describing the parsed manifest in that folder |
| LevelLoader.Loader.constructor | LegacyCore-Shared/Loader.cs:50-62 | `Awake` up to and including `CreateCustomCollections` (line 62): every list holds exactly its mode's game levels, nothing is loading or loaded, and progress is 0 |
| LevelLoader.Loader.MenusSeeLists | LegacyCore-Shared/Loader.cs:133-140 | whatever mode the menus ask the table for, they get that mode's list |
| LevelLoader.Loader.OnSceneLoaded | LegacyCore-Shared/Loader.cs:76-90 | a scene change during a running pass marks it canceled, stops loading and resets progress to 0; otherwise nothing changes |
| LevelLoader.Loader.ReloadLevels | LegacyCore-Shared/Loader.cs:362-397 | outside the menu or during loading nothing changes; otherwise flags and progress are reset, the lists hold only the game's levels, and a pass queues one delegate per accepted dir and then its callback |
| LevelLoader.Loader.StartLoading | LegacyCore-Shared/Loader.cs:368-373 | a reload starts not loaded, loading, at progress 0 and not canceled, with the loader still consistent |
| LevelLoader.Loader.RemovePublished | LegacyCore-Shared/Loader.cs:387-393 | after the removal loop every list holds only its mode's game levels |
| LevelLoader.Loader.RemoveEach | LegacyCore-Shared/Loader.cs:387-393 | each published level, in order, is removed from all four lists, leaving the game's levels |
| LevelLoader.Loader.RetrieveLevels | LegacyCore-Shared/Loader.cs:245-360 | a full reload releases all pooled instances and forgets the loaded levels; a partial one skips their folders; the queue gains the accepted delegates and the callback |
| LevelLoader.Loader.BeginPass | LegacyCore-Shared/Loader.cs:247-257 | a full reload releases every pooled level and beatmap data and clears the loaded levels; a new pass with an empty level list starts |
| LevelLoader.Loader.ScanDir | LegacyCore-Shared/Loader.cs:276-311 | one dir: skipped when known, unreadable or a duplicate, queued otherwise; the result is `Accept` extended by that dir |
| LevelLoader.Loader.ScanFolder | LegacyCore-Shared/Loader.cs:269-317 | one folder's dirs, in order, extend the accepted list as `Accept` says |
| LevelLoader.Loader.Produce | LegacyCore-Shared/Loader.cs:257-324 | the background pass queues the delegates for `Accept` of the visited dirs, then the callback |
| LevelLoader.Loader.ScanAll | LegacyCore-Shared/Loader.cs:261-318 | the folder loop queues exactly `Accept` of the listed dirs, stopping at the first listing that throws |
| LevelLoader.Loader.DrawInit | LegacyCore-Shared/Loader.cs:177-179 | draws a level and initialises it: the manifest's id, texts and figures, the environment scene `GetSceneInfo` resolves from the cache before the call, and the silent clip; the scene cache becomes `SceneCacheAfter`; fails exactly when `info.dat` is gone, leaving the sets and the cache alone |
| LevelLoader.Loader.DrawLevel | LegacyCore-Shared/Loader.cs:175-181 | draws a level from the pool, initialises it for the characteristic with the song's id and the one environment scene all its levels share, and gives it the silent clip; the scene cache is then the one after the song's first lookup; fails exactly when `info.dat` is gone; the levels already drawn for the manifest keep their state |
| LevelLoader.SceneSettled | LegacyCore-Shared/Custom/CustomLevelSO.cs:45-60 | whether the scene cache is the one before the song's first lookup or the one after it, the environment resolves to the same scene and the cache ends up the same |
| LevelLoader.Loader.AddBeatmaps | LegacyCore-Shared/Loader.cs:194-219 | one set's entries yield, in order, exactly its kept beatmaps, each owned by the level, and draw one beatmap data per entry with text |
| LevelLoader.Loader.AddBeatmap | LegacyCore-Shared/Loader.cs:196-218 | an entry with text draws a beatmap data holding it, and becomes a beatmap when its difficulty parses |
| LevelLoader.Loader.LoadSet | LegacyCore-Shared/Loader.cs:169-220 | one set: skipped when its name does not parse, else its level is drawn on first sight and its entries join that characteristic's beatmaps |
| LevelLoader.Loader.SkipLoading | LegacyCore-Shared/Loader.cs:171-172 | a set whose name does not parse changes nothing |
| LevelLoader.Loader.LoadKnown | LegacyCore-Shared/Loader.cs:174-219 | a set of a known characteristic: the loop state afterwards is that of the next set |
| LevelLoader.Loader.FillKnown | LegacyCore-Shared/Loader.cs:185-219 | the set's entries join its characteristic's group, after which the loop state is that of the next set |
| LevelLoader.Loader.GroupFor | LegacyCore-Shared/Loader.cs:174-192 | the existing level and beatmap list of the characteristic, or, on first sight, a new level with an empty list |
| LevelLoader.Loader.OpenGroup | LegacyCore-Shared/Loader.cs:175-181 | on first sight of a characteristic a level is drawn and an empty beatmap list opened; fails exactly when `info.dat` is gone |
| LevelLoader.Loader.FillGroup | LegacyCore-Shared/Loader.cs:194-219 | the set's kept entries are appended to that group's beatmaps and no other's |
| LevelLoader.Loader.EmitOne | LegacyCore-Shared/Loader.cs:224-232 | a level is handed back exactly when it has beatmaps, and then holds them and the cover `LoadCoverImage` finds (or keeps its own when none is found), with the cover cache updated; a level without beatmaps is untouched |
| LevelLoader.Loader.Emit | LegacyCore-Shared/Loader.cs:222-233 | hands back, in first-seen order, exactly the levels with beatmaps, each holding its characteristic's kept entries and, when the cover is cached or decodes, that sprite; the cover cache changes only when some level is handed back |
| LevelLoader.Loader.EmitStep | LegacyCore-Shared/Loader.cs:222-233 | one step of the emission loop keeps the handed-back list in step with the groups seen |
| LevelLoader.Loader.EmitAdded | LegacyCore-Shared/Loader.cs:226-231 | a group with beatmaps adds its level to the handed-back list, holding its beatmaps and the cover found, with the cover cache after the lookup |
| LevelLoader.Loader.EmitSkipped | LegacyCore-Shared/Loader.cs:226 | a group without beatmaps adds nothing and leaves the handed-back levels as they were |
| LevelLoader.Loader.GroupSets | LegacyCore-Shared/Loader.cs:169-220 | the set loop either reaches the end of the sets or fails on the first draw, when `info.dat` is gone |
| LevelLoader.Loader.LoadSong | LegacyCore-Shared/Loader.cs:161-243 | null when `info.dat` is gone and some set names a characteristic (with one pooled level taken); otherwise one level per characteristic with usable entries, in first-seen order, each initialised from the manifest (its id and, for every level, the environment scene resolved from the scene cache at the call) and holding exactly the usable entries of its sets, with pool draws counted; the scene cache is left as after one lookup of the environment when some set names a characteristic, and unchanged otherwise; the levels handed out before the call are untouched; when the cover is cached or decodes every handed-back level shows that sprite, and the cover cache grows by it only when some level is handed back |
| LevelLoader.Loader.HandBack | LegacyCore-Shared/Loader.cs:222-234 | once the sets are grouped, the handed-back levels are exactly those of `Emitted`, newly drawn, each `Loaded` from the manifest with the song's id and environment scene, with the cover as for `Emit`, the scene cache as `LoadSong` states and the pool counts as `LoadSong` states |
| LevelLoader.Loader.RunItem | LegacyCore-Shared/Loader.cs:301-311 | does nothing once loading is canceled; otherwise loads the level, adds its levels to the current pass, and sets progress to folder index over folder count; the levels it loads are `SongLoaded` from the manifest when `info.dat` exists, and there are none when it is gone |
| LevelLoader.Loader.Record | LegacyCore-Shared/Loader.cs:306-310 | the levels join the pass's list exactly when the delegate belongs to the current pass, progress moves to its folder, and the levels stay as loaded |
| LevelLoader.Loader.LoadLevels | LegacyCore-Shared/Loader.cs:306 | the levels `LoadSong` hands back are newly drawn and belong to that manifest, and are `SongLoaded` from it when `info.dat` exists; the loaded levels are untouched |
| LevelLoader.Loader.Publish | LegacyCore-Shared/Loader.cs:329-346 | after the add loop each list is the game's levels followed by the loaded levels going to that mode, in order |
| LevelLoader.Loader.PublishStep | LegacyCore-Shared/Loader.cs:329-346 | one step of the add loop extends each list by the level when the mode takes it |
| LevelLoader.Loader.AddToLists | LegacyCore-Shared/Loader.cs:331-345 | Standard levels go to SoloStandard and PartyStandard, NoArrows to SoloNoArrows, OneSaber to SoloOneSaber |
| LevelLoader.Loader.Complete | LegacyCore-Shared/Loader.cs:324-357 | the pass's levels join the loaded ones, all sorted by song name, published to the lists; loading is over and progress is 1 |
| LevelLoader.Loader.PublishAll | LegacyCore-Shared/Loader.cs:329-353 | the lists hold the loaded levels; flags, progress and task are set as after loading |
| LevelLoader.Loader.Merge | LegacyCore-Shared/Loader.cs:326-327 | the loaded levels become the sorted union of the old ones and the pass's |
| LevelLoader.Loader.DispatchOne | LegacyCore-Shared/Loader.cs:301-357 | runs the oldest delegate: a load delegate changes no list, and once loading is canceled it leaves the pass's list, the progress and the pools as they were; the current pass's callback publishes unless canceled; a stale or canceled callback changes nothing |
| LevelLoader.Loader.TakeNext | LegacyCore-Shared/Loader.cs:301-311 | the dispatcher takes the oldest queued delegate; what remains stays in order and never holds a second callback for the current pass |
| LevelLoader.Loader.DispatchLoad | LegacyCore-Shared/Loader.cs:301-311 | a load delegate taken from the queue changes no list and no flag; once loading is canceled it leaves the pass's list, the progress and the pools as they were; otherwise it adds its levels to the pass's list when it belongs to the current pass, and sets progress; its levels are `SongLoaded` from the manifest when `info.dat` exists |
| LevelLoader.Loader.DispatchFinish | LegacyCore-Shared/Loader.cs:324-357 | the current pass's callback, when not canceled, publishes the sorted union of the loaded and the pass's levels; a stale or canceled callback changes nothing |

## Left out

- Threads and `HMTask` are modelled as a queue: the background scan runs whole inside `ReloadLevels`, and the dispatcher is `DispatchOne`. Interleavings of the two threads are not modelled.
- The completion callback of a canceled task does not run, which is what `HMTask.Cancel` is taken to mean. `HMTask` is not part of this model.
- The delegates of a canceled pass stay queued. If a new reload clears the flag, they still run `LoadSong` and draw from the pools, but their levels join a list nothing reads.
- Events (`loadingStartedEvent`, `levelsLoadedEvent`), the progress bar, logging, `Update` and key handling are left out. They change no state of the model.
- `StopAllCoroutines` in the cancel branch (Loader.cs:84) is left out. It can stop a `LoadAudioClip` coroutine (started at Loader.cs:111) while it waits for the download. That level's `isAudioClipLoading` then stays true and its clip is never cached, and the guard at Loader.cs:107 blocks every later retry. The model's `LoadAudioClip` always runs to the end.
- The menu branch of `OnSceneLoaded` is left out: the main flow coordinator and the level-selection handler are Unity objects. `OnDidSelectLevelEvent` is only reflected in `LoadAudioClip`.
- CustomLevel.CustomLevelSO.LoadAudioClip: modelled as one uninterrupted run. In the source it is a coroutine: it checks the cache (CustomLevelSO.cs:75), yields for the download and the wait (lines 80 and 93), and only then adds the clip (line 96). The guard at Loader.cs:107 is per level, so two levels of one song (two characteristics) can both start it before either has cached the clip. The second `Add` then throws on the duplicate key, the coroutine ends there without clearing `isAudioClipLoading`, and that level's clip is never set, so the guard blocks every later retry. The model does not capture this overlap.
- `LoadAudioClip`'s `WWW` download, `GetEscapedUrl` and the 5-second wait for a non-empty clip are a decoder parameter.
- `LoadCoverImage`'s texture decoding is a decoder parameter. `InitData` is not part of this model.
- Exceptions inside `SetJsonData`, `InitData` and the per-entry `try` of `LoadSong` are not modelled.
- Floats (BPM, offsets, speeds) are carried as opaque values and never computed with. Progress is kept as the fraction it is computed from.
- The model's `Enum.TryParse` accepts exactly the declared member names, case-sensitively, as .NET does for names. The other forms .NET accepts are not modelled: numeric strings, names padded with whitespace, and comma lists.
- `OrderBy(x => x.songName)` uses the ordinal character order, not the culture-sensitive comparer. The sort is stable, as `OrderBy` is.
- The characteristic dictionaries of `LoadSong` are enumerated in insertion order.
- JSON deserialisation is a parser parameter. A manifest with a null set or entry array is folded into "does not parse".
- `Directory.GetDirectories` is one listing. A listing that throws at the root still runs the callback, so a full reload then publishes nothing.
- `Directory.GetFiles` for a folder is a listing per folder. One that throws ends the whole scan, as the outer `catch` does.
- LevelLoader.Loader.LoadSong: requires the default environment to be among the loaded scene infos. Without it `GetSceneInfo` recurses forever on an unknown environment name. `RunItem`, `DispatchLoad` and `DispatchOne` require it only for a load delegate that runs while loading is not canceled.
- LevelLoader.Loader.LoadSong: manifest file names are taken to be non-null relative names without invalid path characters. `Path.Combine` is modelled as joining with a separator, so a rooted name is not returned alone, and `LoadCoverImage` never throws. In the source, a null or invalid cover name, or a failing `ReadAllBytes`, throws inside the outer `try` (Loader.cs:228 and 235-240). `LoadSong` then returns null, with its levels already drawn and holding their beatmaps.
- LevelLoader.Loader.LoadSong: when the cover is neither cached nor decodable, it does not state which cover a handed-back level shows. `EmitOne` states that the level keeps the cover it had. For a level reused from the pool, that is the previous song's cover, because `Reset` clears only the audio clip.
- LevelLoader.Loader.Emit: the same gap as `LoadSong` for the case where no cover is found; `EmitOne` states it.
- LevelLoader.Loader.HandBack: the same gap as `LoadSong` for the case where no cover is found.
- LevelLoader.Loader.DispatchOne: for a load delegate it does not restate what joins the pass's list; `DispatchLoad` states that.
- LevelLoader.Loader.LoadLevels: for a manifest whose `info.dat` exists it states the levels and their contents (`SongLoaded`), but not the pool counts, the cover or the scene cache; those are `LoadSong`'s contract. `RunItem` and `DispatchLoad` state the same about the levels they load.
- `PoolSO` resetting (`IResetableSO.Reset` on release) is not called by the code shown. `Reset` is modelled on its own.
- A manifest whose `info.dat` vanishes between scan and load keeps its drawn level in the pool's handed-out list until the next full reload.
- A partial reload re-sorts and re-publishes every loaded level, not only the new ones, as the code does.
- The static caches are shared by all levels as one `MediaCache` object.
