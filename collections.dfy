/** The per-mode level lists the game's menus read: `CustomLevelCollectionSO`
    (a mutable list of levels behind a level collection) and
    `CustomLevelCollectionsForGameplayModes` (the table from gameplay mode to
    collection, searched in order). */
module Collections {
  import opened Host
  import opened CustomLevel

  datatype GameplayMode = SoloStandard | SoloOneSaber | SoloNoArrows | PartyStandard

  /** A level shipped with the game, known by its id. */
  datatype BuiltInLevel = BuiltInLevel(levelID: string)

  /** An entry of a level list: a built-in level or a custom one. */
  datatype Level = BuiltIn(builtIn: BuiltInLevel) | Custom(custom: CustomLevelSO)

  /** `List.Remove`: drops the first occurrence of `x`, if there is one. */
  function RemoveFirst<T(==)>(s: seq<T>, x: T): (r: seq<T>)
    ensures x !in s ==> r == s
    ensures x in s ==> |r| == |s| - 1
  {
    if s == [] then []
    else if s[0] == x then s[1..]
    else [s[0]] + RemoveFirst(s[1..], x)
  }

  /** What is removed is the first occurrence: everything before it and after it stays, in order. */
  lemma RemoveFirstSplit<T>(a: seq<T>, x: T, b: seq<T>)
    requires x !in a
    ensures RemoveFirst(a + [x] + b, x) == a + b
  {
    assert a + [x] + b == a + ([x] + b);
    RemoveFirstAfter(a, [x] + b, x);
    assert ([x] + b)[1..] == b;
  }

  /** Removal takes exactly one copy of `x` out of the list when there is one. */
  lemma {:induction false} RemoveFirstMultiset<T>(s: seq<T>, x: T)
    ensures multiset(RemoveFirst(s, x)) == multiset(s) - multiset{x}
  {
    if s != [] {
      RemoveFirstMultiset(s[1..], x);
      assert multiset(s) == multiset{s[0]} + multiset(s[1..]) by {
        assert s == [s[0]] + s[1..];
      }
      if s[0] != x {
        assert multiset(RemoveFirst(s, x)) == multiset{s[0]} + multiset(RemoveFirst(s[1..], x));
      }
    }
  }

  /** A prefix without `x` is left alone: removal happens in the rest. */
  lemma {:induction false} RemoveFirstAfter<T>(a: seq<T>, b: seq<T>, x: T)
    requires x !in a
    ensures RemoveFirst(a + b, x) == a + RemoveFirst(b, x)
  {
    if a == [] {
      assert a + b == b;
    } else {
      assert (a + b)[1..] == a[1..] + b;
      RemoveFirstAfter(a[1..], b, x);
      assert a + RemoveFirst(b, x) == [a[0]] + (a[1..] + RemoveFirst(b, x));
    }
  }

  /** `CustomLevelCollectionSO`: a level collection whose levels live in a
      list the loader adds to and removes from. `levels` is the inherited
      array field, which nothing here ever sets. */
  class CustomLevelCollectionSO {
    var levelsList: seq<Level>
    var levels: Option<seq<Level>>

    /** `ScriptableObject.CreateInstance`. */
    constructor ()
      ensures levelsList == [] && levels == None
    {
      levelsList, levels := [], None;
    }

    /** Starts a new list holding the given levels in order. The list is a
        copy: the array is not changed, now or by later list updates, and
        whatever the list held before is gone. */
    method Init(input: array<Level>)
      modifies this`levelsList
      ensures levelsList == input[..]
    {
      levelsList := input[..];
    }

    /** `levelsList.Add`. */
    method Add(level: Level)
      modifies this`levelsList
      ensures levelsList == old(levelsList) + [level]
    {
      levelsList := levelsList + [level];
    }

    /** `levelsList.Remove`: whether the level was there; its first occurrence is gone. */
    method Remove(level: Level) returns (removed: bool)
      modifies this`levelsList
      ensures removed <==> level in old(levelsList)
      ensures levelsList == RemoveFirst(old(levelsList), level)
    {
      removed := level in levelsList;
      levelsList := RemoveFirst(levelsList, level);
    }
  }

  /** The collection behind a mode: the game's own, with a fixed level
      array (possibly null), or a custom one. */
  datatype LevelCollection =
    | StandardCollection(levels: Option<seq<Level>>)
    | CustomCollection(collection: CustomLevelCollectionSO)

  /** A `LevelCollectionForGameplayMode`; `isCustomEntry` tells a
      `CustomLevelCollectionForGameplayMode` from the base class. */
  datatype ModeEntry = ModeEntry(gameplayMode: GameplayMode, isCustomEntry: bool, levelCollection: LevelCollection)

  /** The custom collections a table refers to. */
  function CollectionObjects(cs: seq<ModeEntry>): set<CustomLevelCollectionSO>
  {
    set i | 0 <= i < |cs| && cs[i].levelCollection.CustomCollection? :: cs[i].levelCollection.collection
  }

  /** Position of the first entry for `mode`, if any. */
  function FirstIndexOf(cs: seq<ModeEntry>, mode: GameplayMode): (k: Option<nat>)
    ensures k.Some? ==> k.value < |cs| && cs[k.value].gameplayMode == mode
    ensures k.Some? ==> forall i :: 0 <= i < k.value ==> cs[i].gameplayMode != mode
    ensures k.None? <==> forall i :: 0 <= i < |cs| ==> cs[i].gameplayMode != mode
  {
    if cs == [] then None
    else if cs[0].gameplayMode == mode then Some(0)
    else
      var k := FirstIndexOf(cs[1..], mode);
      if k.None? then None else Some(k.value + 1)
  }

  /** The levels an entry answers with: a copy of the list for a custom
      entry over a custom collection, the collection's array otherwise. */
  function EntryLevels(e: ModeEntry): Option<seq<Level>>
    reads if e.levelCollection.CustomCollection? then {e.levelCollection.collection} else {}
  {
    match e.levelCollection
    case StandardCollection(levels) => levels
    case CustomCollection(c) => if e.isCustomEntry then Some(c.levelsList) else c.levels
  }

  /** What `GetLevels(mode)` answers for table `cs`: the first matching
      entry's levels, or null when no entry matches. */
  function LevelsFor(cs: seq<ModeEntry>, mode: GameplayMode): Option<seq<Level>>
    reads CollectionObjects(cs)
  {
    var k := FirstIndexOf(cs, mode);
    if k.None? then None
    else
      assert cs[k.value].levelCollection.CustomCollection? ==>
        cs[k.value].levelCollection.collection in CollectionObjects(cs);
      EntryLevels(cs[k.value])
  }

  /** Entries after the first match for a mode never change its answer. */
  lemma LevelsForFirstMatch(cs: seq<ModeEntry>, e: ModeEntry, rest: seq<ModeEntry>)
    requires forall i :: 0 <= i < |cs| ==> cs[i].gameplayMode != e.gameplayMode
    ensures FirstIndexOf(cs + [e] + rest, e.gameplayMode) == Some(|cs|)
  {
    var all := cs + [e] + rest;
    var k := FirstIndexOf(all, e.gameplayMode);
    assert all[|cs|] == e;
    assert forall i :: 0 <= i < |cs| ==> all[i] == cs[i];
  }

  /** `CustomLevelCollectionsForGameplayModes`: the mode table the menus ask for levels. */
  class CustomLevelCollectionsForGameplayModes {
    var collections: seq<ModeEntry>

    constructor ()
      ensures collections == []
    {
      collections := [];
    }

    /** Replaces the whole table. */
    method SetCollections(cs: seq<ModeEntry>)
      modifies this`collections
      ensures collections == cs
    {
      collections := cs;
    }

    /** Scans the table in order and answers from the first entry for `mode`;
        changes nothing. */
    method GetLevels(mode: GameplayMode) returns (r: Option<seq<Level>>)
      ensures var k := FirstIndexOf(collections, mode);
        && (k.None? ==> r.None?)
        && (k.Some? ==> var e := collections[k.value];
              r == if e.isCustomEntry && e.levelCollection.CustomCollection?
                   then Some(e.levelCollection.collection.levelsList)
                   else if e.levelCollection.CustomCollection? then e.levelCollection.collection.levels
                   else e.levelCollection.levels)
      ensures r == LevelsFor(collections, mode)
    {
      var i := 0;
      while i < |collections|
        invariant 0 <= i <= |collections|
        invariant forall k :: 0 <= k < i ==> collections[k].gameplayMode != mode
      {
        var e := collections[i];
        if e.gameplayMode == mode {
          assert FirstIndexOf(collections, mode) == Some(i);
          if e.isCustomEntry && e.levelCollection.CustomCollection? {
            return Some(e.levelCollection.collection.levelsList);
          }
          match e.levelCollection {
            case StandardCollection(levels) => return levels;
            case CustomCollection(c) => return c.levels;
          }
        }
        i := i + 1;
      }
      return None;
    }
  }
}
