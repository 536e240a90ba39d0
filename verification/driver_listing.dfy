/**
  The type-filtered driver listing: the drivers whose type equals the requested one
  ignoring case, in their original order, followed by a synthetic "default" entry
  that carries the versions of the last matching data-source type; every entry then
  gets its display alias.
 */
module DriverListing {
  import opened Optional
  import opened AsciiCase
  import opened DriverModel

  /** The driver's type equals `t` ignoring case (a null type never matches). */
  predicate HasType(d: Driver, t: string) {
    d.driverType.Some? && EqualsIgnoreCase(d.driverType.value, t)
  }

  /** No driver has a null type (one would make the filter throw). */
  predicate AllTyped(drivers: seq<Driver>) {
    forall i :: 0 <= i < |drivers| ==> drivers[i].driverType.Some?
  }

  /** The drivers of type `t`, in their original relative order. */
  function MatchingDrivers(drivers: seq<Driver>, t: string): (r: seq<Driver>)
    ensures |r| <= |drivers|
    ensures forall k :: 0 <= k < |r| ==> HasType(r[k], t) && r[k] in drivers
  {
    if |drivers| == 0 then []
    else
      var last := drivers[|drivers| - 1];
      MatchingDrivers(drivers[..|drivers| - 1], t) + (if HasType(last, t) then [last] else [])
  }

  /** The positions of the drivers of type `t`: ascending, and exactly the matching ones. */
  function MatchIndices(drivers: seq<Driver>, t: string): (idx: seq<nat>)
    ensures forall k :: 0 <= k < |idx| ==> idx[k] < |drivers|
    ensures forall k, m :: 0 <= k < m < |idx| ==> idx[k] < idx[m]
    ensures forall i :: 0 <= i < |drivers| ==> (HasType(drivers[i], t) <==> i in idx)
  {
    if |drivers| == 0 then []
    else
      var n := |drivers| - 1;
      MatchIndices(drivers[..n], t) + (if HasType(drivers[n], t) then [n] else [])
  }

  /** The filter keeps exactly the drivers at the matching positions, in order. */
  lemma {:induction false} MatchingDriversAtMatchIndices(drivers: seq<Driver>, t: string)
    ensures |MatchingDrivers(drivers, t)| == |MatchIndices(drivers, t)|
    ensures forall k :: 0 <= k < |MatchIndices(drivers, t)| ==>
      MatchingDrivers(drivers, t)[k] == drivers[MatchIndices(drivers, t)[k]]
  {
    if |drivers| > 0 {
      var n := |drivers| - 1;
      var front := drivers[..n];
      MatchingDriversAtMatchIndices(front, t);
      var r, idx := MatchingDrivers(drivers, t), MatchIndices(drivers, t);
      var r0, idx0 := MatchingDrivers(front, t), MatchIndices(front, t);
      forall k | 0 <= k < |idx|
        ensures r[k] == drivers[idx[k]]
      {
        if k < |idx0| {
          assert r[k] == r0[k] == front[idx0[k]];
        }
      }
    }
  }

  /**
    The supported versions of the last data-source type whose name equals `t`
    ignoring case; null when none matches.
   */
  function LastMatchVersions(types: seq<DsType>, t: string): Option<string> {
    if |types| == 0 then None
    else if EqualsIgnoreCase(types[|types| - 1].dsType, t) then types[|types| - 1].supportVersions
    else LastMatchVersions(types[..|types| - 1], t)
  }

  /** Descriptor `j` matches `t` and no later one does. */
  predicate IsLastMatch(types: seq<DsType>, t: string, j: int) {
    0 <= j < |types| && EqualsIgnoreCase(types[j].dsType, t)
    && forall k :: j < k < |types| ==> !EqualsIgnoreCase(types[k].dsType, t)
  }

  /** With no matching descriptor the versions stay null. */
  lemma {:induction false} LastMatchVersionsWithoutMatch(types: seq<DsType>, t: string)
    requires forall j :: 0 <= j < |types| ==> !EqualsIgnoreCase(types[j].dsType, t)
    ensures LastMatchVersions(types, t) == None
  {
    if |types| > 0 {
      var n := |types| - 1;
      assert forall j :: 0 <= j < n ==> types[..n][j] == types[j];
      LastMatchVersionsWithoutMatch(types[..n], t);
    }
  }

  /** Otherwise they are those of the last matching descriptor. */
  lemma {:induction false} LastMatchVersionsIsLastMatch(types: seq<DsType>, t: string, j: int)
    requires IsLastMatch(types, t, j)
    ensures LastMatchVersions(types, t) == types[j].supportVersions
  {
    var n := |types| - 1;
    if j < n {
      assert !EqualsIgnoreCase(types[n].dsType, t);
      assert IsLastMatch(types[..n], t, j) by {
        assert forall k :: j < k < n ==> types[..n][k] == types[k];
      }
      LastMatchVersionsIsLastMatch(types[..n], t, j);
    }
  }

  /** The synthetic entry appended to every typed listing, before its alias is set. */
  function DefaultEntry(types: seq<DsType>, t: string): Driver {
    Driver("default", "default", None, "default", LastMatchVersions(types, t), None)
  }

  /** Every entry with its display alias set. */
  function Aliased(entries: seq<Driver>): (r: seq<Driver>)
    ensures |r| == |entries|
    ensures forall k :: 0 <= k < |r| ==> r[k] == WithAlias(entries[k])
  {
    seq(|entries|, k requires 0 <= k < |entries| => WithAlias(entries[k]))
  }

  /** The listing of drivers of type `t` with the synthetic default entry last. */
  function ListByType(drivers: seq<Driver>, types: seq<DsType>, t: string): (r: seq<Driver>)
    requires AllTyped(drivers)
    ensures |r| == |MatchingDrivers(drivers, t)| + 1
    ensures r[|r| - 1] == WithAlias(DefaultEntry(types, t))
    ensures forall k :: 0 <= k < |r| - 1 ==> r[k] == WithAlias(MatchingDrivers(drivers, t)[k])
  {
    Aliased(MatchingDrivers(drivers, t) + [DefaultEntry(types, t)])
  }

  /**
    The listing is exactly the drivers of type `t` (the positions MatchIndices
    gives: ascending, and exactly the matching ones), each changed in its alias
    only, followed by one more entry; so it is never empty.
   */
  lemma ListByTypeKeepsMatchesInOrder(drivers: seq<Driver>, types: seq<DsType>, t: string)
    requires AllTyped(drivers)
    ensures |ListByType(drivers, types, t)| == |MatchIndices(drivers, t)| + 1
    ensures forall k :: 0 <= k < |MatchIndices(drivers, t)| ==>
      var d := drivers[MatchIndices(drivers, t)[k]];
      ListByType(drivers, types, t)[k].(nameAlias := d.nameAlias) == d
  {
    MatchingDriversAtMatchIndices(drivers, t);
  }

  /** The last entry is the synthetic "default" with the last matching type's versions. */
  lemma ListByTypeDefaultLast(drivers: seq<Driver>, types: seq<DsType>, t: string)
    requires AllTyped(drivers)
    ensures var r := ListByType(drivers, types, t);
      var last := r[|r| - 1];
      && last.id == "default" && last.name == "default" && last.driverClass == "default"
      && last.driverType == None
      && last.supportVersions == LastMatchVersions(types, t)
  {
  }

  /** Every entry's alias is its name, decorated with its versions unless those are empty. */
  lemma ListByTypeAliases(drivers: seq<Driver>, types: seq<DsType>, t: string)
    requires AllTyped(drivers)
    ensures var r := ListByType(drivers, types, t);
      forall k :: 0 <= k < |r| ==>
        r[k].nameAlias == Some(
          if r[k].supportVersions.None? || r[k].supportVersions.value == "" then r[k].name
          else r[k].name + "(" + r[k].supportVersions.value + ")")
  {
  }

  /** When no real driver of type `t` is itself called "default", the last entry is the only one. */
  lemma DefaultEntryIsUnique(drivers: seq<Driver>, types: seq<DsType>, t: string)
    requires AllTyped(drivers)
    requires forall i :: 0 <= i < |drivers| && HasType(drivers[i], t) ==> drivers[i].id != "default"
    ensures var r := ListByType(drivers, types, t);
      forall k :: 0 <= k < |r| ==> (r[k].id == "default" <==> k == |r| - 1)
  {
  }

  /** Conversely, a real driver of type `t` called "default" appears before the synthetic entry. */
  lemma MatchedDefaultIdRepeats(drivers: seq<Driver>, types: seq<DsType>, t: string, i: int)
    requires AllTyped(drivers)
    requires 0 <= i < |drivers| && HasType(drivers[i], t) && drivers[i].id == "default"
    ensures var r := ListByType(drivers, types, t);
      exists k :: 0 <= k < |r| - 1 && r[k].id == "default"
  {
    var r := ListByType(drivers, types, t);
    var idx := MatchIndices(drivers, t);
    MatchingDriversAtMatchIndices(drivers, t);
    var k :| 0 <= k < |idx| && idx[k] == i;
    assert r[k].id == drivers[i].id;
  }

  lemma {:induction false} MatchingDriversIgnoresCase(drivers: seq<Driver>, t1: string, t2: string)
    requires EqualsIgnoreCase(t1, t2)
    ensures MatchingDrivers(drivers, t1) == MatchingDrivers(drivers, t2)
  {
    if |drivers| > 0 {
      var n := |drivers| - 1;
      MatchingDriversIgnoresCase(drivers[..n], t1, t2);
      if drivers[n].driverType.Some? {
        var ty := drivers[n].driverType.value;
        EqualsIgnoreCaseIsEquivalence(ty, t1, t2);
        EqualsIgnoreCaseIsEquivalence(ty, t2, t1);
        EqualsIgnoreCaseIsEquivalence(t1, t2, t2);
      }
    }
  }

  lemma {:induction false} LastMatchVersionsIgnoresCase(types: seq<DsType>, t1: string, t2: string)
    requires EqualsIgnoreCase(t1, t2)
    ensures LastMatchVersions(types, t1) == LastMatchVersions(types, t2)
  {
    if |types| > 0 {
      var n := |types| - 1;
      LastMatchVersionsIgnoresCase(types[..n], t1, t2);
      var ty := types[n].dsType;
      EqualsIgnoreCaseIsEquivalence(ty, t1, t2);
      EqualsIgnoreCaseIsEquivalence(ty, t2, t1);
      EqualsIgnoreCaseIsEquivalence(t1, t2, t2);
    }
  }

  /** Requested types that differ only in case give the same listing. */
  lemma ListByTypeIgnoresCase(drivers: seq<Driver>, types: seq<DsType>, t1: string, t2: string)
    requires AllTyped(drivers)
    requires EqualsIgnoreCase(t1, t2)
    ensures ListByType(drivers, types, t1) == ListByType(drivers, types, t2)
  {
    MatchingDriversIgnoresCase(drivers, t1, t2);
    LastMatchVersionsIgnoresCase(types, t1, t2);
  }

  /** The controller's filter, as a loop over the drivers. */
  method FilterByType(drivers: seq<Driver>, t: string) returns (kept: seq<Driver>)
    requires AllTyped(drivers)
    ensures kept == MatchingDrivers(drivers, t)
  {
    kept := [];
    var i := 0;
    while i < |drivers|
      invariant 0 <= i <= |drivers|
      invariant kept == MatchingDrivers(drivers[..i], t)
    {
      assert drivers[..i + 1][..i] == drivers[..i];
      if EqualsIgnoreCase(drivers[i].driverType.value, t) {
        kept := kept + [drivers[i]];
      }
      i := i + 1;
    }
    assert drivers[..i] == drivers;
  }

  /** The default entry, built as the controller builds it: its versions overwritten on every matching type. */
  method BuildDefaultEntry(types: seq<DsType>, t: string) returns (entry: Driver)
    ensures entry == DefaultEntry(types, t)
  {
    entry := Driver("default", "default", None, "default", None, None);
    var j := 0;
    while j < |types|
      invariant 0 <= j <= |types|
      invariant entry == DefaultEntry(types[..j], t)
    {
      assert types[..j + 1][..j] == types[..j];
      if EqualsIgnoreCase(types[j].dsType, t) {
        entry := entry.(supportVersions := types[j].supportVersions);
      }
      j := j + 1;
    }
    assert types[..j] == types;
  }

  /** The controller's aliasing pass over the entries. */
  method SetAliases(entries: seq<Driver>) returns (r: seq<Driver>)
    ensures r == Aliased(entries)
  {
    r := [];
    var k := 0;
    while k < |entries|
      invariant 0 <= k <= |entries|
      invariant r == Aliased(entries[..k])
    {
      r := r + [WithAlias(entries[k])];
      k := k + 1;
    }
    assert entries[..k] == entries;
  }

  /**
    The listing computed step by step as the controller does: filter the drivers,
    build the default entry, append it, then set every alias.
   */
  method ListDeDriver(drivers: seq<Driver>, types: seq<DsType>, t: string) returns (r: seq<Driver>)
    requires AllTyped(drivers)
    ensures r == ListByType(drivers, types, t)
  {
    var kept := FilterByType(drivers, t);
    var entry := BuildDefaultEntry(types, t);
    r := SetAliases(kept + [entry]);
  }

  /** A MySQL driver listed under "MYSQL" with no matching type descriptor. */
  lemma ListByTypeExample()
    ensures var mysql := Driver("1", "MySQL", Some("mysql"), "com.mysql.cj.jdbc.Driver", None, None);
      ListByType([mysql], [], "MYSQL")
      == [mysql.(nameAlias := Some("MySQL")),
          Driver("default", "default", None, "default", None, Some("default"))]
  {
  }
}
