/** The two object pools the loader draws from (`PoolSO<CustomLevelSO>` and
    `PoolSO<CustomBeatmapDataSO>`): `Get` hands out a released instance when
    there is one and a new one otherwise; `ReturnAll` releases every instance
    handed out since the last `ReturnAll`. */
module Pools {
  import opened Host
  import opened CustomLevel

  class LevelPool {
    /** Released instances, ready for reuse. */
    var free: seq<CustomLevelSO>
    /** Instances handed out since the last `ReturnAll`. */
    var used: seq<CustomLevelSO>

    ghost predicate Valid()
      reads this
    {
      Distinct(free) && Distinct(used) && (forall x :: x in free ==> x !in used)
    }

    constructor ()
      ensures Valid() && free == [] && used == []
    {
      free, used := [], [];
    }

    /** An instance not handed out since the last `ReturnAll`: a released one, or a new one. */
    method Get() returns (level: CustomLevelSO)
      requires Valid()
      modifies this
      ensures Valid()
      ensures level !in old(used) && used == old(used) + [level]
      ensures if old(free) == [] then fresh(level) && free == []
              else level == old(free)[0] && free == old(free)[1..]
    {
      if free == [] {
        level := new CustomLevelSO();
      } else {
        level := free[0];
        assert free == [level] + free[1..];
        DistinctConcat([level], free[1..]);
        free := free[1..];
      }
      DistinctConcat(used, [level]);
      used := used + [level];
    }

    method ReturnAll()
      requires Valid()
      modifies this
      ensures Valid() && free == old(free) + old(used) && used == []
    {
      DistinctConcat(free, used);
      free, used := free + used, [];
    }
  }

  class BeatmapDataPool {
    var free: seq<CustomBeatmapData>
    var used: seq<CustomBeatmapData>

    ghost predicate Valid()
      reads this
    {
      Distinct(free) && Distinct(used) && (forall x :: x in free ==> x !in used)
    }

    constructor ()
      ensures Valid() && free == [] && used == []
    {
      free, used := [], [];
    }

    method Get() returns (data: CustomBeatmapData)
      requires Valid()
      modifies this
      ensures Valid()
      ensures data !in old(used) && used == old(used) + [data]
      ensures if old(free) == [] then fresh(data) && free == []
              else data == old(free)[0] && free == old(free)[1..]
    {
      if free == [] {
        data := new CustomBeatmapData();
      } else {
        data := free[0];
        assert free == [data] + free[1..];
        DistinctConcat([data], free[1..]);
        free := free[1..];
      }
      DistinctConcat(used, [data]);
      used := used + [data];
    }

    method ReturnAll()
      requires Valid()
      modifies this
      ensures Valid() && free == old(free) + old(used) && used == []
    {
      DistinctConcat(free, used);
      free, used := free + used, [];
    }
  }
}
