/** The Melbourne station table and the case-insensitive callsign lookup
    (`find_station_frequency`); 0 is the "not found" answer. */
module Stations {
  import opened MachineInts

  datatype Station = Station(frequency: uint32, callsign: string)

  /** `melbourne_stations`, in table order (station names and descriptions are display text only). */
  const MelbourneStations: seq<Station> := [
    Station(621000, "2RN"), Station(693000, "3AW"), Station(774000, "3LO"),
    Station(855000, "3CR"), Station(927000, "RSN"), Station(1026000, "ABC"),
    Station(1116000, "SEN"), Station(1179000, "3RPH"), Station(1224000, "SBS"),
    Station(1278000, "3EE"), Station(1341000, "3CW"), Station(1377000, "3MP"),
    Station(1422000, "3PB"), Station(1503000, "3ZZ"), Station(1546000, "3XY")]

  /** `tolower` in the C locale: only 'A'..'Z' change. */
  function ToLowerAscii(c: char): char
  {
    if 'A' <= c <= 'Z' then (c as int + 32) as char else c
  }

  /** `strcasecmp(a, b) == 0`. */
  predicate EqualsIgnoreCase(a: string, b: string)
  {
    |a| == |b| && forall i :: 0 <= i < |a| ==> ToLowerAscii(a[i]) == ToLowerAscii(b[i])
  }

  /** The frequency of the first station in `table` whose callsign matches, or 0. */
  function FirstMatch(table: seq<Station>, callsign: string): uint32
  {
    if table == [] then 0
    else if EqualsIgnoreCase(callsign, table[0].callsign) then table[0].frequency
    else FirstMatch(table[1..], callsign)
  }

  function StationFrequency(callsign: string): uint32
  {
    FirstMatch(MelbourneStations, callsign)
  }

  /** FirstMatch over a table of non-zero frequencies returns 0 exactly when no
      callsign matches, and otherwise the frequency of the first match. */
  lemma {:induction false} FirstMatchSpec(table: seq<Station>, callsign: string)
    requires forall i :: 0 <= i < |table| ==> table[i].frequency != 0
    ensures FirstMatch(table, callsign) == 0 <==>
              forall i :: 0 <= i < |table| ==> !EqualsIgnoreCase(callsign, table[i].callsign)
    ensures FirstMatch(table, callsign) != 0 ==>
              exists i :: 0 <= i < |table| && EqualsIgnoreCase(callsign, table[i].callsign)
                          && FirstMatch(table, callsign) == table[i].frequency
                          && forall j :: 0 <= j < i ==> !EqualsIgnoreCase(callsign, table[j].callsign)
  {
    if table != [] && !EqualsIgnoreCase(callsign, table[0].callsign) {
      FirstMatchSpec(table[1..], callsign);
      if FirstMatch(table, callsign) != 0 {
        var k :| 0 <= k < |table[1..]| && EqualsIgnoreCase(callsign, table[1..][k].callsign)
                 && FirstMatch(table[1..], callsign) == table[1..][k].frequency
                 && forall j :: 0 <= j < k ==> !EqualsIgnoreCase(callsign, table[1..][j].callsign);
        assert EqualsIgnoreCase(callsign, table[k + 1].callsign);
      }
    } else if table != [] {
      assert EqualsIgnoreCase(callsign, table[0].callsign);
    }
  }

  /** Every station frequency lies in the carrier range the option parser accepts,
      so a station found never collides with the 0 "not found" answer. */
  lemma StationFrequenciesInRange()
    ensures forall i :: 0 <= i < |MelbourneStations| ==>
              10000 <= MelbourneStations[i].frequency <= 30000000
  {
  }

  /** A station the lookup finds has a frequency in the accepted carrier range. */
  lemma FoundStationInRange(callsign: string)
    ensures StationFrequency(callsign) != 0 ==> 10000 <= StationFrequency(callsign) <= 30000000
  {
    StationFrequenciesInRange();
    FirstMatchSpec(MelbourneStations, callsign);
    if StationFrequency(callsign) != 0 {
      var k :| 0 <= k < |MelbourneStations| && StationFrequency(callsign) == MelbourneStations[k].frequency;
    }
  }

  /** The linear search loop of `find_station_frequency`, over a table of
      non-zero frequencies: 0 exactly when no callsign matches, otherwise the
      frequency of a matching station. */
  method SearchTable(table: seq<Station>, callsign: string) returns (frequency: uint32)
    requires forall i :: 0 <= i < |table| ==> table[i].frequency != 0
    ensures frequency == FirstMatch(table, callsign)
    ensures frequency == 0 <==>
              forall i :: 0 <= i < |table| ==> !EqualsIgnoreCase(callsign, table[i].callsign)
    ensures frequency != 0 ==>
              exists i :: 0 <= i < |table| && EqualsIgnoreCase(callsign, table[i].callsign)
                          && frequency == table[i].frequency
  {
    FirstMatchSpec(table, callsign);
    var i := 0;
    while i < |table|
      invariant 0 <= i <= |table|
      invariant FirstMatch(table[i..], callsign) == FirstMatch(table, callsign)
    {
      if EqualsIgnoreCase(callsign, table[i].callsign) {
        return table[i].frequency;
      }
      assert table[i..][1..] == table[i + 1..];
      i := i + 1;
    }
    return 0;
  }

  /** `find_station_frequency`: the search over the Melbourne table. */
  method FindStationFrequency(callsign: string) returns (frequency: uint32)
    ensures frequency == StationFrequency(callsign)
    ensures frequency == 0 <==>
              forall i :: 0 <= i < |MelbourneStations| ==> !EqualsIgnoreCase(callsign, MelbourneStations[i].callsign)
    ensures frequency != 0 ==>
              exists i :: 0 <= i < |MelbourneStations| && EqualsIgnoreCase(callsign, MelbourneStations[i].callsign)
                          && frequency == MelbourneStations[i].frequency
  {
    StationFrequenciesInRange();
    frequency := SearchTable(MelbourneStations, callsign);
  }

  /** Lookup ignores case: "3aw" selects 3AW. */
  lemma LookupIgnoresCase()
    ensures StationFrequency("3aw") == 693000
    ensures StationFrequency("xyz") == 0
  {
    assert EqualsIgnoreCase("3aw", "3AW");
    assert ToLowerAscii("3aw"[0]) != ToLowerAscii("2RN"[0]);
    forall i | 0 <= i < |MelbourneStations|
      ensures !EqualsIgnoreCase("xyz", MelbourneStations[i].callsign)
    {
      assert |MelbourneStations[i].callsign| > 0;
      assert ToLowerAscii("xyz"[0]) != ToLowerAscii(MelbourneStations[i].callsign[0]);
    }
    FirstMatchSpec(MelbourneStations, "xyz");
  }
}
