/** firmware/main/node_power_logger.cpp: a day's minute files gathered into the series
    the split and the cost are computed from. */
module DayInputs {
  import opened Options
  import opened CArithmetic
  import opened DaySplit

  /** A stored reading; time in seconds. */
  datatype Record = Record(time: int, mw: int)

  datatype File = GridFile | NodeFile(id: string) | ChargeFile(id: string)

  /** The day's files, those that exist. */
  type Files = map<File, seq<Record>>

  datatype Stream = Stream(id: string, role: string, isGrid: bool)

  // ---- load_minutes ------------------------------------------------------------------------

  /** The minute of the day a record falls in. */
  function MinuteOf(r: Record, dayStart: int): int {
    TruncDiv(r.time - dayStart, 60)
  }

  /** The last of the first n records that fall in minute i; n when there is none. */
  function LastIn(records: seq<Record>, dayStart: int, i: nat, n: nat): (k: nat)
    requires n <= |records|
    ensures k <= n
    ensures k < n ==> MinuteOf(records[k], dayStart) == i
    ensures forall j :: (if k < n then k < j else 0 <= j) && j < n ==> MinuteOf(records[j], dayStart) != i
  {
    if n == 0 then 0
    else if MinuteOf(records[n - 1], dayStart) == i then n - 1
    else
      var k := LastIn(records, dayStart, i, n - 1);
      if k == n - 1 then n else k
  }

  /** The reading of minute i: the last record's, or the filler. */
  function ReadingAt(records: seq<Record>, dayStart: int, fill: int, i: nat, n: nat): int
    requires n <= |records|
  {
    var k := LastIn(records, dayStart, i, n);
    if k < n then records[k].mw else fill
  }

  function MinutesOf(records: seq<Record>, dayStart: int, fill: int): (m: Minutes) {
    seq(MINUTES, i requires 0 <= i < MINUTES => ReadingAt(records, dayStart, fill, i, |records|))
  }

  /** A record reaches the minute it lies in; one from the last minute before midnight
      reaches minute 0, as truncation rounds it up. */
  predicate Reaches(r: Record, dayStart: int, i: nat) {
    dayStart + 60 * i - (if i == 0 then 59 else 0) <= r.time < dayStart + 60 * (i + 1)
  }

  lemma MinuteReached(r: Record, dayStart: int, i: nat)
    ensures MinuteOf(r, dayStart) == i <==> Reaches(r, dayStart, i)
  {
  }

  /** A minute's reading is that of the last record to reach it, or the filler. */
  ghost predicate IsReading(records: seq<Record>, dayStart: int, fill: int, i: nat, mw: int) {
    if exists k :: 0 <= k < |records| && Reaches(records[k], dayStart, i) then
      exists k :: 0 <= k < |records| && Reaches(records[k], dayStart, i) && mw == records[k].mw
        && forall j :: k < j < |records| ==> !Reaches(records[j], dayStart, i)
    else mw == fill
  }

  lemma ReadingByTime(records: seq<Record>, dayStart: int, fill: int, i: nat)
    ensures IsReading(records, dayStart, fill, i, ReadingAt(records, dayStart, fill, i, |records|))
  {
    forall j | 0 <= j < |records|
      ensures MinuteOf(records[j], dayStart) == i <==> Reaches(records[j], dayStart, i)
    {
      MinuteReached(records[j], dayStart, i);
    }
    var k := LastIn(records, dayStart, i, |records|);
    if k < |records| {
      assert Reaches(records[k], dayStart, i);
    }
  }

  method LoadMinutes(file: Option<seq<Record>>, dayStart: int, fill: int) returns (mw: Option<Minutes>)
    ensures file.None? ==> mw.None?
    ensures file.Some? ==> mw == Some(MinutesOf(file.value, dayStart, fill))
    ensures file.Some? ==> forall i :: 0 <= i < MINUTES ==> IsReading(file.value, dayStart, fill, i, mw.value[i])
  {
    if file.None? {
      return None;
    }
    var records := file.value;
    var m: Minutes := seq(MINUTES, _ => fill);
    for k := 0 to |records|
      invariant forall i :: 0 <= i < MINUTES ==> m[i] == ReadingAt(records, dayStart, fill, i, k)
    {
      var idx := MinuteOf(records[k], dayStart);
      if 0 <= idx < MINUTES {
        m := m[idx := records[k].mw];
      }
    }
    assert m == MinutesOf(records, dayStart, fill);
    forall i | 0 <= i < MINUTES
      ensures IsReading(records, dayStart, fill, i, m[i])
    {
      ReadingByTime(records, dayStart, fill, i);
    }
    mw := Some(m);
  }

  // ---- The streams of a day ------------------------------------------------------------------

  function FileOf(files: Files, f: File): Option<seq<Record>> {
    if f in files then Some(files[f]) else None
  }

  /** A stream's stored readings; zero where there is no file. */
  function SeriesOf(files: Files, s: Stream, dayStart: int): Minutes {
    if NodeFile(s.id) in files then MinutesOf(files[NodeFile(s.id)], dayStart, 0)
    else seq(MINUTES, _ => 0)
  }

  predicate HasRole(s: Stream, role: string) {
    !s.isGrid && s.role == role
  }

  predicate IsLoad(s: Stream) {
    !s.isGrid && s.role != "solar" && s.role != "battery"
  }

  function SuppliedMw(raw: int): int {
    -raw
  }

  /** What the meters of the first n streams of a role read in minute i. */
  function ReadBy(files: Files, streams: seq<Stream>, role: string, dayStart: int, i: nat, n: nat): int
    requires n <= |streams| && i < MINUTES
  {
    if n == 0 then 0
    else
      ReadBy(files, streams, role, dayStart, i, n - 1)
        + if HasRole(streams[n - 1], role) then SeriesOf(files, streams[n - 1], dayStart)[i] else 0
  }

  /** The first n streams that are loads, as stored. */
  function LoadsOf(files: Files, streams: seq<Stream>, dayStart: int, n: nat): seq<Load>
    requires n <= |streams|
  {
    if n == 0 then []
    else
      var s := streams[n - 1];
      LoadsOf(files, streams, dayStart, n - 1) + if IsLoad(s) then [Load(s.id, SeriesOf(files, s, dayStart))] else []
  }

  /** The state of charge is that of the first battery with such a file; no reading is -1. */
  function ChargeOf(files: Files, streams: seq<Stream>, dayStart: int, n: nat): Option<Minutes>
    requires n <= |streams|
  {
    if n == 0 then None
    else
      var before, s := ChargeOf(files, streams, dayStart, n - 1), streams[n - 1];
      if before.None? && HasRole(s, "battery") && ChargeFile(s.id) in files
      then Some(MinutesOf(files[ChargeFile(s.id)], dayStart, -1))
      else before
  }

  /** The charge is that of the first battery in the list that has such a file. */
  lemma {:induction false} ChargeIsFirst(files: Files, streams: seq<Stream>, dayStart: int, n: nat)
    requires n <= |streams|
    ensures var charge := ChargeOf(files, streams, dayStart, n);
            if exists i :: 0 <= i < n && HasCharge(files, streams[i]) then
              exists i :: 0 <= i < n && HasCharge(files, streams[i])
                && (forall j :: 0 <= j < i ==> !HasCharge(files, streams[j]))
                && charge == Some(MinutesOf(files[ChargeFile(streams[i].id)], dayStart, -1))
            else charge == None
  {
    if n > 0 {
      ChargeIsFirst(files, streams, dayStart, n - 1);
    }
  }

  predicate HasCharge(files: Files, s: Stream) {
    !s.isGrid && s.role == "battery" && ChargeFile(s.id) in files
  }

  /** The streams that are neither the grid's nor of the sun or a battery, in order. */
  function LoadStreams(streams: seq<Stream>, n: nat): (t: seq<nat>)
    requires n <= |streams|
    ensures forall k :: 0 <= k < |t| ==> t[k] < n
  {
    if n == 0 then [] else LoadStreams(streams, n - 1) + if IsLoad(streams[n - 1]) then [n - 1] else []
  }

  lemma {:induction false} LoadStreamsAre(streams: seq<Stream>, n: nat)
    requires n <= |streams|
    ensures var t := LoadStreams(streams, n);
            && (forall j, k :: 0 <= j < k < |t| ==> t[j] < t[k])
            && (forall i :: 0 <= i < n ==>
                  (i in t <==> !streams[i].isGrid && streams[i].role != "solar" && streams[i].role != "battery"))
  {
    if n > 0 {
      LoadStreamsAre(streams, n - 1);
      var before := LoadStreams(streams, n - 1);
      assert forall i :: i in LoadStreams(streams, n) <==> i in before || (i == n - 1 && IsLoad(streams[n - 1]));
    }
  }

  /** Each of them is a load, once and in the order of the streams, with its readings. */
  lemma {:induction false} LoadsListed(files: Files, streams: seq<Stream>, dayStart: int, n: nat)
    requires n <= |streams|
    ensures var loads, t := LoadsOf(files, streams, dayStart, n), LoadStreams(streams, n);
            |loads| == |t| && forall k :: 0 <= k < |t| ==>
              loads[k] == Load(streams[t[k]].id, SeriesOf(files, streams[t[k]], dayStart))
  {
    if n > 0 {
      LoadsListed(files, streams, dayStart, n - 1);
    }
  }

  /** m adds up what the first n streams of a role supply; a meter reads what goes in. */
  ghost predicate Supplies(m: Minutes, files: Files, streams: seq<Stream>, role: string, dayStart: int, n: nat)
    requires n <= |streams|
  {
    forall i :: 0 <= i < MINUTES ==> m[i] + ReadBy(files, streams, role, dayStart, i, n) == 0
  }

  method AddSupplied(sum: Minutes, mw: Minutes) returns (out: Minutes)
    ensures forall i :: 0 <= i < MINUTES ==> out[i] == sum[i] + SuppliedMw(mw[i])
  {
    out := sum;
    for i := 0 to MINUTES
      invariant forall k :: 0 <= k < MINUTES ==> out[k] == if k < i then sum[k] + SuppliedMw(mw[k]) else sum[k]
    {
      out := out[i := out[i] + SuppliedMw(mw[i])];
    }
  }

  /** The day the split is computed from; None exactly without a grid file. */
  method GatherDay(files: Files, streams: seq<Stream>, dayStart: int) returns (day: Option<Day>)
    ensures day.Some? <==> GridFile in files
    ensures day.Some? ==>
      && day.value.grid == MinutesOf(files[GridFile], dayStart, 0)
      && Supplies(day.value.inverter, files, streams, "solar", dayStart, |streams|)
      && Supplies(day.value.battery, files, streams, "battery", dayStart, |streams|)
      && day.value.charge == ChargeOf(files, streams, dayStart, |streams|)
      && day.value.loads == LoadsOf(files, streams, dayStart, |streams|)
  {
    var grid := LoadMinutes(FileOf(files, GridFile), dayStart, 0);
    if grid.None? {
      return None;
    }
    var inverter: Minutes, battery: Minutes := seq(MINUTES, _ => 0), seq(MINUTES, _ => 0);
    var charge: Option<Minutes>, loads: seq<Load> := None, [];
    for n := 0 to |streams|
      invariant Supplies(inverter, files, streams, "solar", dayStart, n)
      invariant Supplies(battery, files, streams, "battery", dayStart, n)
      invariant charge == ChargeOf(files, streams, dayStart, n)
      invariant loads == LoadsOf(files, streams, dayStart, n)
    {
      var s := streams[n];
      if !s.isGrid {
        var found := LoadMinutes(FileOf(files, NodeFile(s.id)), dayStart, 0);
        var mw: Minutes := if found.Some? then found.value else seq(MINUTES, _ => 0);
        if s.role == "solar" {
          inverter := AddSupplied(inverter, mw);
        } else if s.role == "battery" {
          battery := AddSupplied(battery, mw);
          if charge.None? {
            charge := LoadMinutes(FileOf(files, ChargeFile(s.id)), dayStart, -1);
          }
        } else {
          loads := loads + [Load(s.id, mw)];
        }
      }
    }
    day := Some(Day(grid.value, inverter, battery, charge, loads));
  }

  /** What the cost is computed from: the same grid, solar and loads as the split's. */
  method GatherCosts(files: Files, streams: seq<Stream>, dayStart: int)
    returns (found: bool, grid: Minutes, solar: Minutes, loads: seq<Load>)
    ensures found <==> GridFile in files
    ensures found ==>
      && grid == MinutesOf(files[GridFile], dayStart, 0)
      && Supplies(solar, files, streams, "solar", dayStart, |streams|)
      && loads == LoadsOf(files, streams, dayStart, |streams|)
  {
    solar, loads := seq(MINUTES, _ => 0), [];
    grid := seq(MINUTES, _ => 0);
    var gridFile := LoadMinutes(FileOf(files, GridFile), dayStart, 0);
    if gridFile.None? {
      return false, grid, solar, loads;
    }
    grid := gridFile.value;
    for n := 0 to |streams|
      invariant Supplies(solar, files, streams, "solar", dayStart, n)
      invariant loads == LoadsOf(files, streams, dayStart, n)
    {
      var s := streams[n];
      if !(s.isGrid || s.role == "battery") {
        var series := LoadMinutes(FileOf(files, NodeFile(s.id)), dayStart, 0);
        var mw: Minutes := if series.Some? then series.value else seq(MINUTES, _ => 0);
        if s.role == "solar" {
          solar := AddSupplied(solar, mw);
        } else {
          loads := loads + [Load(s.id, mw)];
        }
      }
    }
    found := true;
  }
}
