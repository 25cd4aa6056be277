/**
 * `Jeeves`: catalog lookups on an output repository. The registry tables and
 * the sky-map dataset are abstract inputs; the object caches the butler, the
 * sky map, the filter list and the visit list in fields on first access.
 */
module Catalog {
  import opened Common
  import opened Text

  /** A row of the `raw_visit` table. */
  datatype VisitRow = VisitRow(visit: int, filter: string)

  /** A row of the `raw` table. */
  datatype RawRow = RawRow(visit: int, raft: string)

  /** The `(i, j)` index of a patch within its tract. */
  datatype PatchIndex = PatchIndex(x: int, y: int)

  /** A sky map: its tracts, each listing its patches in iteration order. */
  type SkyMap = seq<seq<PatchIndex>>

  /** A data butler opened on a repository root. */
  datatype Butler = Butler(root: string)

  predicate NoDup<T(==)>(s: seq<T>) {
    forall i, j | 0 <= i < j < |s| :: s[i] != s[j]
  }

  /**
   * `select distinct ...`: each value once, in order of first occurrence.
   */
  function Distinct<T(==,!new)>(s: seq<T>): (r: seq<T>)
    ensures NoDup(r)
    ensures forall x :: x in r <==> x in s
    ensures |r| <= |s|
  {
    if |s| == 0 then []
    else
      var r := Distinct(s[..|s| - 1]);
      var x := s[|s| - 1];
      assert forall y :: y in s <==> y in s[..|s| - 1] || y == x by {
        assert s == s[..|s| - 1] + [x];
      }
      if x in r then r else r + [x]
  }

  /** Distinct keeps a sequence that has no repetitions as it is. */
  lemma {:induction false} DistinctOfNoDup<T(!new)>(s: seq<T>)
    requires NoDup(s)
    ensures Distinct(s) == s
  {
    if |s| > 0 {
      var p := s[..|s| - 1];
      assert NoDup(p);
      DistinctOfNoDup(p);
      assert s[|s| - 1] !in p;
      assert s == p + [s[|s| - 1]];
    }
  }

  /** Extending the input only appends to the distinct list: earlier values keep their places. */
  lemma {:induction false} DistinctExtends<T(!new)>(s: seq<T>, t: seq<T>)
    ensures Distinct(s) <= Distinct(s + t)
    decreases |t|
  {
    if |t| == 0 {
      assert s + t == s;
    } else {
      var u := s + t[..|t| - 1];
      assert (s + t)[..|s + t| - 1] == u;
      DistinctExtends(s, t[..|t| - 1]);
    }
  }

  /** `select visit from raw_visit`, duplicates included. */
  function VisitColumn(rows: seq<VisitRow>): (r: seq<int>)
    ensures |r| == |rows|
    ensures forall k | 0 <= k < |rows| :: r[k] == rows[k].visit
  {
    if |rows| == 0 then [] else [rows[0].visit] + VisitColumn(rows[1..])
  }

  function FilterColumn(rows: seq<VisitRow>): (r: seq<string>)
    ensures |r| == |rows|
    ensures forall k | 0 <= k < |rows| :: r[k] == rows[k].filter
  {
    if |rows| == 0 then [] else [rows[0].filter] + FilterColumn(rows[1..])
  }

  /** `select distinct filter from raw_visit`. */
  function FilterList(rows: seq<VisitRow>): (r: seq<string>)
    ensures NoDup(r)
    ensures forall f :: f in r <==> exists k | 0 <= k < |rows| :: rows[k].filter == f
  {
    var c := FilterColumn(rows);
    assert forall f :: f in c <==> exists k | 0 <= k < |rows| :: rows[k].filter == f by {
      forall f | f in c ensures exists k | 0 <= k < |rows| :: rows[k].filter == f {
        var k :| 0 <= k < |c| && c[k] == f;
        assert rows[k].filter == f;
      }
      forall f | exists k | 0 <= k < |rows| :: rows[k].filter == f ensures f in c {
        var k :| 0 <= k < |rows| && rows[k].filter == f;
        assert c[k] == f;
      }
    }
    Distinct(c)
  }

  /** The raft column of the rows of `raw` for one visit. */
  function RaftColumn(rows: seq<RawRow>, visit: int): (r: seq<string>)
    ensures forall x :: x in r <==> exists k | 0 <= k < |rows| :: rows[k] == RawRow(visit, x)
  {
    if |rows| == 0 then []
    else
      var rest := RaftColumn(rows[1..], visit);
      assert forall x :: (exists k | 0 <= k < |rows| :: rows[k] == RawRow(visit, x)) <==>
        rows[0] == RawRow(visit, x) || exists k | 0 <= k < |rows[1..]| :: rows[1..][k] == RawRow(visit, x) by {
        forall x | exists k | 0 <= k < |rows| :: rows[k] == RawRow(visit, x)
          ensures rows[0] == RawRow(visit, x) || exists k | 0 <= k < |rows[1..]| :: rows[1..][k] == RawRow(visit, x)
        {
          var k :| 0 <= k < |rows| && rows[k] == RawRow(visit, x);
          if k > 0 {
            assert rows[1..][k - 1] == RawRow(visit, x);
          }
        }
        forall x | exists k | 0 <= k < |rows[1..]| :: rows[1..][k] == RawRow(visit, x)
          ensures exists k | 0 <= k < |rows| :: rows[k] == RawRow(visit, x)
        {
          var k :| 0 <= k < |rows[1..]| && rows[1..][k] == RawRow(visit, x);
          assert rows[k + 1] == RawRow(visit, x);
        }
      }
      if rows[0].visit == visit then [rows[0].raft] + rest else rest
  }

  /** `select distinct raft from raw where visit=<visit>`. */
  function RaftList(rows: seq<RawRow>, visit: int): (r: seq<string>)
    ensures NoDup(r)
    ensures forall x :: x in r <==> exists k | 0 <= k < |rows| :: rows[k] == RawRow(visit, x)
  {
    Distinct(RaftColumn(rows, visit))
  }

  /** `'%i,%i' % index`. */
  function PatchIdString(p: PatchIndex): string {
    IntToString(p.x) + "," + IntToString(p.y)
  }

  /** Reads a patch id back into its index. */
  function ParsePatchId(s: string): Option<PatchIndex> {
    var parts := Split(s, ',');
    if |parts| != 2 then None
    else match (ParseInt(parts[0]), ParseInt(parts[1]))
      case (Some(x), Some(y)) => Some(PatchIndex(x, y))
      case _ => None
  }

  lemma PatchIdRoundTrip(p: PatchIndex)
    ensures ParsePatchId(PatchIdString(p)) == Some(p)
  {
    var a, b := IntToString(p.x), IntToString(p.y);
    assert ',' !in a && ',' !in b by {
      IntToStringChars(p.x);
      IntToStringChars(p.y);
    }
    assert JoinWith([','], [a, b]) == a + [','] + JoinWith([','], [b]);
    assert PatchIdString(p) == JoinWith([','], [a, b]);
    SplitJoin([a, b], ',');
    IntRoundTrip(p.x);
    IntRoundTrip(p.y);
  }

  /** Python's `seq[i]` position for a possibly negative index, or `IndexError`. */
  function PyIndex(n: nat, i: int): (r: Result<nat>)
    ensures r.Ok? <==> -(n as int) <= i < n
    ensures r.Ok? ==> r.value < n && (if i >= 0 then r.value == i else r.value == n + i)
    ensures r.Err? ==> r.error == IndexError
  {
    if 0 <= i < n then Ok(i)
    else if -(n as int) <= i < 0 then Ok(n + i)
    else Err(IndexError)
  }

  /** `get_patch_ids(tract)` once the sky map is at hand. */
  function PatchIds(sky: SkyMap, tract: int): (r: Result<seq<string>>)
    ensures r.Ok? <==> -|sky| <= tract < |sky|
    ensures r.Err? ==> r.error == IndexError
    ensures r.Ok? ==>
      var patches := sky[PyIndex(|sky|, tract).value];
      |r.value| == |patches|
      && forall k | 0 <= k < |patches| ::
        r.value[k] == PatchIdString(patches[k]) && ParsePatchId(r.value[k]) == Some(patches[k])
  {
    var t :- PyIndex(|sky|, tract);
    var patches := sky[t];
    var ids := seq(|patches|, k requires 0 <= k < |patches| => PatchIdString(patches[k]));
    assert forall k | 0 <= k < |patches| :: ParsePatchId(ids[k]) == Some(patches[k]) by {
      forall k | 0 <= k < |patches| ensures ParsePatchId(ids[k]) == Some(patches[k]) {
        PatchIdRoundTrip(patches[k]);
      }
    }
    Ok(ids)
  }

  /**
   * The output repository as the catalog sees it: the registry tables and the
   * stored `deepCoadd_skyMap` dataset, if the sky-map stage has produced it.
   */
  class DataRepository {
    var rawVisit: seq<VisitRow>
    var raw: seq<RawRow>
    var deepCoaddSkyMap: Option<SkyMap>

    constructor (rawVisit: seq<VisitRow>, raw: seq<RawRow>, deepCoaddSkyMap: Option<SkyMap>)
      ensures this.rawVisit == rawVisit && this.raw == raw && this.deepCoaddSkyMap == deepCoaddSkyMap
    {
      this.rawVisit := rawVisit;
      this.raw := raw;
      this.deepCoaddSkyMap := deepCoaddSkyMap;
    }
  }

  class Jeeves {
    const repo: string
    /** The registry connection and the butler's view of `repo`. */
    const data: DataRepository
    var butlerCache: Option<Butler>
    var skyMapCache: Option<SkyMap>
    var filterCache: Option<seq<string>>
    var visitCache: Option<seq<int>>
    /** How often each source was consulted. */
    ghost var butlerOpens: nat
    ghost var skyMapReads: nat
    ghost var filterQueries: nat
    ghost var visitQueries: nat

    /**
     * Each source has been consulted once for every cached value and never
     * otherwise; the butler is always the one opened on `repo`, and it is
     * open whenever the sky map, which is read through it, is cached.
     */
    ghost predicate Valid()
      reads this
    {
      && butlerOpens == (if butlerCache.Some? then 1 else 0)
      && skyMapReads == (if skyMapCache.Some? then 1 else 0)
      && filterQueries == (if filterCache.Some? then 1 else 0)
      && visitQueries == (if visitCache.Some? then 1 else 0)
      && (butlerCache.Some? ==> butlerCache.value == Butler(repo))
      && (skyMapCache.Some? ==> butlerCache.Some?)
    }

    constructor (repo: string, data: DataRepository)
      ensures Valid()
      ensures this.repo == repo && this.data == data
      ensures butlerCache.None? && skyMapCache.None? && filterCache.None? && visitCache.None?
    {
      this.repo := repo;
      this.data := data;
      butlerCache, skyMapCache, filterCache, visitCache := None, None, None, None;
      butlerOpens, skyMapReads, filterQueries, visitQueries := 0, 0, 0, 0;
    }

    /** The `butler` property: opened on first access, the same handle afterwards. */
    method GetButler() returns (b: Butler)
      requires Valid()
      modifies this
      ensures Valid()
      ensures b == Butler(repo)
      ensures butlerCache == Some(b)
      ensures butlerOpens == old(butlerOpens) + (if old(butlerCache).None? then 1 else 0)
      ensures unchanged(this`skyMapCache, this`filterCache, this`visitCache)
      ensures unchanged(this`skyMapReads, this`filterQueries, this`visitQueries)
    {
      if butlerCache.None? {
        butlerCache := Some(Butler(repo));
        butlerOpens := butlerOpens + 1;
      }
      b := butlerCache.value;
    }

    /**
     * The `sky_map` property: the stored `deepCoadd_skyMap` on the first
     * successful access, the cached one afterwards. A missing dataset raises
     * and leaves the cache empty.
     */
    method GetSkyMap() returns (r: Result<SkyMap>)
      requires Valid()
      modifies this
      ensures Valid()
      ensures old(skyMapCache).Some? ==> r == Ok(old(skyMapCache).value) && skyMapCache == old(skyMapCache)
      ensures old(skyMapCache).None? && data.deepCoaddSkyMap.Some? ==>
        r == Ok(data.deepCoaddSkyMap.value) && skyMapCache == Some(r.value)
      ensures old(skyMapCache).None? && data.deepCoaddSkyMap.None? ==>
        r == Err(NoSkyMap) && skyMapCache.None?
      ensures butlerCache == Some(Butler(repo))
      ensures unchanged(this`filterCache, this`visitCache, this`filterQueries, this`visitQueries)
    {
      if skyMapCache.None? {
        var b := GetButler();
        match data.deepCoaddSkyMap
        case None =>
          return Err(NoSkyMap);
        case Some(m) =>
          skyMapCache := Some(m);
          skyMapReads := skyMapReads + 1;
      }
      r := Ok(skyMapCache.value);
    }

    /** The `filters` property: `select distinct filter from raw_visit`, queried once. */
    method GetFilters() returns (fs: seq<string>)
      requires Valid()
      modifies this
      ensures Valid()
      ensures old(filterCache).Some? ==> fs == old(filterCache).value
      ensures old(filterCache).None? ==> fs == FilterList(data.rawVisit)
      ensures filterCache == Some(fs)
      ensures unchanged(this`butlerCache, this`skyMapCache, this`visitCache)
      ensures unchanged(this`butlerOpens, this`skyMapReads, this`visitQueries)
    {
      if filterCache.None? {
        filterCache := Some(FilterList(data.rawVisit));
        filterQueries := filterQueries + 1;
      }
      fs := filterCache.value;
    }

    /** The `visits` property: `select visit from raw_visit`, queried once. */
    method GetVisits() returns (vs: seq<int>)
      requires Valid()
      modifies this
      ensures Valid()
      ensures old(visitCache).Some? ==> vs == old(visitCache).value
      ensures old(visitCache).None? ==> vs == VisitColumn(data.rawVisit)
      ensures visitCache == Some(vs)
      ensures unchanged(this`butlerCache, this`skyMapCache, this`filterCache)
      ensures unchanged(this`butlerOpens, this`skyMapReads, this`filterQueries)
    {
      if visitCache.None? {
        visitCache := Some(VisitColumn(data.rawVisit));
        visitQueries := visitQueries + 1;
      }
      vs := visitCache.value;
    }

    /** `get_patch_ids(tract)`: one `"i,j"` id per patch of the tract, through the cached sky map. */
    method GetPatchIds(tract: int) returns (r: Result<seq<string>>)
      requires Valid()
      modifies this
      ensures Valid()
      ensures old(skyMapCache).Some? ==> r == PatchIds(old(skyMapCache).value, tract)
      ensures old(skyMapCache).None? && data.deepCoaddSkyMap.Some? ==>
        r == PatchIds(data.deepCoaddSkyMap.value, tract)
      ensures old(skyMapCache).None? && data.deepCoaddSkyMap.None? ==> r == Err(NoSkyMap)
      ensures unchanged(this`filterCache, this`visitCache, this`filterQueries, this`visitQueries)
    {
      var m :- GetSkyMap();
      r := PatchIds(m, tract);
    }

    /** `get_rafts(visit)`: not cached, so it always reflects the current registry. */
    function GetRafts(visit: int): (r: seq<string>)
      reads data
      ensures NoDup(r)
      ensures forall x :: x in r <==> exists k | 0 <= k < |data.raw| :: data.raw[k] == RawRow(visit, x)
    {
      RaftList(data.raw, visit)
    }
  }

  /**
   * Once a lookup is cached, changes to the registry are not seen: the
   * second access returns the first answer, even an empty one, and the
   * registry is not queried again.
   */
  method FiltersOutliveRegistryChange(j: Jeeves, row: VisitRow) returns (first: seq<string>, second: seq<string>)
    requires j.Valid() && j.filterCache.None?
    modifies j, j.data
    ensures first == second == FilterList(old(j.data.rawVisit))
    ensures j.filterQueries == 1
  {
    first := j.GetFilters();
    j.data.rawVisit := j.data.rawVisit + [row];
    second := j.GetFilters();
  }
}
