/** The background half of a reload pass, as values: which folders holding an
    `info.dat` are visited, and which of them become queued levels. A folder
    is skipped when a partial reload already knows its path, when its
    manifest cannot be read or parsed, or when its content id was already
    seen in this pass. */
module Scan {
  import opened Host
  import opened LevelInfo

  /** A folder under the custom-levels root, with the folders at any depth
      below it that hold an `info.dat`; `None` when listing them throws. */
  datatype SongFolder = SongFolder(path: string, infoDirs: Option<seq<string>>)

  /** Every dir of one song folder, tagged with the folder's 1-based position. */
  function Tagged(dirs: seq<string>, index: nat): (r: seq<(string, nat)>)
    ensures |r| == |dirs|
    ensures forall k :: 0 <= k < |r| ==> r[k] == (dirs[k], index)
  {
    seq(|dirs|, k requires 0 <= k < |dirs| => (dirs[k], index))
  }

  /** The dirs the scan visits, in order, and whether a listing threw, which
      ends the whole scan. */
  datatype Listing = Listing(candidates: seq<(string, nat)>, aborted: bool)

  function Listed(folders: seq<SongFolder>): Listing
  {
    if folders == [] then Listing([], false)
    else
      var prev := Listed(folders[..|folders| - 1]);
      if prev.aborted then prev
      else match folders[|folders| - 1].infoDirs
        case None => Listing(prev.candidates, true)
        case Some(dirs) => Listing(prev.candidates + Tagged(dirs, |folders|), false)
  }

  /** Once a listing has thrown, later folders are never looked at. */
  lemma {:induction false} ListedAbortStops(folders: seq<SongFolder>, more: seq<SongFolder>)
    requires Listed(folders).aborted
    ensures Listed(folders + more) == Listed(folders)
  {
    if more != [] {
      var n := |more| - 1;
      assert (folders + more)[..|folders + more| - 1] == folders + more[..n];
      ListedAbortStops(folders, more[..n]);
    } else {
      assert folders + more == folders;
    }
  }

  /** Tagging one more dir of a folder adds it at the end. */
  lemma TaggedStep(cands: seq<(string, nat)>, dirs: seq<string>, j: nat, index: nat)
    requires j < |dirs|
    ensures cands + Tagged(dirs[..j + 1], index) == (cands + Tagged(dirs[..j], index)) + [(dirs[j], index)]
  {
  }

  /** One more folder of a scan that has not stopped. */
  lemma ListedStep(folders: seq<SongFolder>, i: nat)
    requires i < |folders| && !Listed(folders[..i]).aborted
    ensures Listed(folders[..i + 1]) == match folders[i].infoDirs
      case None => Listing(Listed(folders[..i]).candidates, true)
      case Some(dirs) => Listing(Listed(folders[..i]).candidates + Tagged(dirs, i + 1), false)
  {
    assert folders[..i + 1][..i] == folders[..i];
  }

  /** A scan that stopped at folder `i` visits what it had visited by then. */
  lemma ListedStopsAt(folders: seq<SongFolder>, i: nat)
    requires i < |folders| && Listed(folders[..i + 1]).aborted
    ensures Listed(folders) == Listed(folders[..i + 1])
  {
    ListedAbortStops(folders[..i + 1], folders[i + 1..]);
    assert folders[..i + 1] + folders[i + 1..] == folders;
  }

  /** Every visited dir belongs to a listed folder, tagged with that folder's position. */
  lemma {:induction false} ListedCandidates(folders: seq<SongFolder>, k: nat)
    requires k < |Listed(folders).candidates|
    ensures var (dir, index) := Listed(folders).candidates[k];
      1 <= index <= |folders| && folders[index - 1].infoDirs.Some? && dir in folders[index - 1].infoDirs.value
  {
    var n := |folders| - 1;
    var prev := Listed(folders[..n]);
    if !prev.aborted && folders[n].infoDirs.Some? && k >= |prev.candidates| {
      var dirs := folders[n].infoDirs.value;
      assert Listed(folders).candidates[k] == Tagged(dirs, |folders|)[k - |prev.candidates|];
    } else {
      ListedCandidates(folders[..n], k);
      assert folders[..n][Listed(folders).candidates[k].1 - 1] == folders[Listed(folders).candidates[k].1 - 1];
    }
  }

  /** What `GetCustomLevelInfo` and `GetLevelData` make of a dir: the parsed
      manifest and the content id, or `None` when the manifest is missing
      or does not parse. */
  function Probe(fs: FileSystem, parse: string -> Option<Manifest>, sha1: seq<byte> -> seq<byte>, dir: string)
    : Option<(Manifest, string)>
  {
    var path := Combine(dir, InfoFileName);
    if path !in fs then None
    else match parse(fs[path].text)
      case None => None
      case Some(m) => Some((m, LevelId(sha1, fs, dir, DeserializedSets(m.difficultyBeatmapSets))))
  }

  /** `Probe` over a fixed file system, parser and digest. */
  function ProbeWith(fs: FileSystem, parse: string -> Option<Manifest>, sha1: seq<byte> -> seq<byte>)
    : string -> Option<(Manifest, string)>
  {
    dir => Probe(fs, parse, sha1, dir)
  }

  /** A dir that becomes a queued level. */
  datatype Accepted = Accepted(dir: string, manifest: Manifest, id: string, index: nat)

  function Ids(acc: seq<Accepted>): (ids: seq<string>)
    ensures |ids| == |acc| && forall k :: 0 <= k < |acc| ==> ids[k] == acc[k].id
  {
    seq(|acc|, k requires 0 <= k < |acc| => acc[k].id)
  }

  /** The dirs the pass queues, in visiting order: not a known path, a
      readable manifest, and an id not seen before in this pass. `probe` is
      what reading a dir gives, `ProbeWith` for the loader. */
  function Accept(probe: string -> Option<(Manifest, string)>,
                  known: set<string>, cands: seq<(string, nat)>): seq<Accepted>
  {
    if cands == [] then []
    else
      var prev := Accept(probe, known, cands[..|cands| - 1]);
      var (dir, index) := cands[|cands| - 1];
      if dir in known then prev
      else match probe(dir)
        case None => prev
        case Some(found) =>
          if found.1 in Ids(prev) then prev else prev + [Accepted(dir, found.0, found.1, index)]
  }

  /** A dir that is known, unreadable or a duplicate adds nothing. */
  lemma AcceptSkip(probe: string -> Option<(Manifest, string)>,
                   known: set<string>, cands: seq<(string, nat)>, dir: string, index: nat)
    requires dir in known || probe(dir).None?
      || probe(dir).value.1 in Ids(Accept(probe, known, cands))
    ensures Accept(probe, known, cands + [(dir, index)]) == Accept(probe, known, cands)
  {
    assert (cands + [(dir, index)])[..|cands|] == cands;
  }

  /** Any other dir is queued after everything before it. */
  lemma AcceptTake(probe: string -> Option<(Manifest, string)>,
                   known: set<string>, cands: seq<(string, nat)>, dir: string, index: nat, m: Manifest, id: string)
    requires dir !in known && probe(dir) == Some((m, id))
    requires id !in Ids(Accept(probe, known, cands))
    ensures Accept(probe, known, cands + [(dir, index)])
         == Accept(probe, known, cands) + [Accepted(dir, m, id, index)]
  {
    assert (cands + [(dir, index)])[..|cands|] == cands;
  }

  /** Within one pass no id is queued twice. */
  lemma {:induction false} AcceptIdsDistinct(probe: string -> Option<(Manifest, string)>,
                                             known: set<string>, cands: seq<(string, nat)>)
    ensures Distinct(Ids(Accept(probe, known, cands)))
  {
    if cands != [] {
      var n := |cands| - 1;
      var prev := Accept(probe, known, cands[..n]);
      AcceptIdsDistinct(probe, known, cands[..n]);
      var acc := Accept(probe, known, cands);
      if acc != prev {
        assert Ids(acc) == Ids(prev) + [acc[|acc| - 1].id];
      }
    }
  }

  /** Every queued dir was visited, is not a known path, and its manifest
      and id are what reading it gives. */
  lemma {:induction false} AcceptSound(probe: string -> Option<(Manifest, string)>,
                                       known: set<string>, cands: seq<(string, nat)>, k: nat)
    requires k < |Accept(probe, known, cands)|
    ensures var a := Accept(probe, known, cands)[k];
      && (a.dir, a.index) in cands && a.dir !in known
      && probe(a.dir) == Some((a.manifest, a.id))
  {
    var n := |cands| - 1;
    var prev := Accept(probe, known, cands[..n]);
    if k < |prev| {
      AcceptSound(probe, known, cands[..n], k);
      assert Accept(probe, known, cands)[k] == prev[k];
      var i :| 0 <= i < n && cands[..n][i] == (prev[k].dir, prev[k].index);
      assert cands[i] == cands[..n][i];
    } else {
      var a := Accept(probe, known, cands)[k];
      assert (a.dir, a.index) == cands[n];
    }
  }

  /** Skipping only ever drops duplicates: every visited dir that is not a
      known path and whose manifest reads has its id queued. */
  lemma {:induction false} AcceptComplete(probe: string -> Option<(Manifest, string)>,
                                          known: set<string>, cands: seq<(string, nat)>, k: nat)
    requires k < |cands| && cands[k].0 !in known && probe(cands[k].0).Some?
    ensures probe(cands[k].0).value.1 in Ids(Accept(probe, known, cands))
  {
    var n := |cands| - 1;
    var prev := Accept(probe, known, cands[..n]);
    var acc := Accept(probe, known, cands);
    assert Ids(prev) <= Ids(acc) by {
      if acc != prev {
        assert Ids(acc) == Ids(prev) + [acc[|acc| - 1].id];
      }
    }
    if k < n {
      assert cands[..n][k] == cands[k];
      AcceptComplete(probe, known, cands[..n], k);
    }
  }
}
