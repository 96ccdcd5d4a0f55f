/** The `/api/stations` listing (app.py:74-92): every row of the station
    CSV becomes one record per route in its "Daytime Routes" field. */
module Stations {
  import opened Wrappers
  import opened StringOps

  /** A row as `csv.DictReader` delivers it: column name to value. A column
      missing from the header is a missing key (indexing raises KeyError);
      a row shorter than the header has None for the missing cells.
      The rows given to the model are the ones the reader delivered before it
      stopped, so an unreadable file is the empty sequence. */
  type Row = map<string, Option<string>>

  const StopIdColumn := "GTFS Stop ID"
  const StopNameColumn := "Stop Name"
  const RoutesColumn := "Daytime Routes"
  const LatitudeColumn := "GTFS Latitude"
  const LongitudeColumn := "GTFS Longitude"

  /** One entry of the listing. Coordinates are passed through as the CSV
      text; any cell may be None when the row was short. */
  datatype StationRecord = StationRecord(
    stopId: Option<string>,
    stationName: Option<string>,
    line: string,
    lat: Option<string>,
    lon: Option<string>)

  /** `row['Daytime Routes'].split()` succeeds: the column exists and the
      cell is not None. */
  predicate HasRoutes(row: Row)
  {
    RoutesColumn in row && row[RoutesColumn].Some?
  }

  function Routes(row: Row): seq<string>
    requires HasRoutes(row)
  {
    Split(row[RoutesColumn].value)
  }

  /** Building one record indexes these four columns. */
  predicate HasRecordColumns(row: Row)
  {
    StopIdColumn in row && StopNameColumn in row && LatitudeColumn in row && LongitudeColumn in row
  }

  function RecordFor(row: Row, route: string): StationRecord
    requires HasRecordColumns(row)
  {
    StationRecord(row[StopIdColumn], row[StopNameColumn], route, row[LatitudeColumn], row[LongitudeColumn])
  }

  /** A row is expanded without raising exactly when its route cell splits
      and, if it names any route at all, the record columns exist. */
  predicate Expandable(row: Row)
  {
    HasRoutes(row) && (Routes(row) != [] ==> HasRecordColumns(row))
  }

  /** The records of one expandable row. */
  function RowRecords(row: Row): (records: seq<StationRecord>)
    requires Expandable(row)
    ensures |records| == |Routes(row)|
  {
    var routes := Routes(row);
    seq(|routes|, k requires 0 <= k < |routes| => RecordFor(row, routes[k]))
  }

  /** The listing: rows are expanded in order until one raises; what was
      built before that row is kept and the rest of the file is skipped. */
  function Listing(rows: seq<Row>): seq<StationRecord>
  {
    if rows == [] || !Expandable(rows[0]) then []
    else RowRecords(rows[0]) + Listing(rows[1..])
  }

  /** The inner loop over one row's routes. None when the row raises: the
      route cell cannot be split, or a record column is missing when the
      first record is built. */
  method ExpandRow(row: Row) returns (records: Option<seq<StationRecord>>)
    ensures records.Some? <==> Expandable(row)
    ensures records.Some? ==> records.value == RowRecords(row)
  {
    if !(RoutesColumn in row) || row[RoutesColumn].None? {
      // KeyError, or AttributeError from None.split()
      return None;
    }
    var routes := Split(row[RoutesColumn].value);
    var built: seq<StationRecord> := [];
    var j := 0;
    while j < |routes|
      invariant 0 <= j <= |routes|
      invariant j > 0 ==> HasRecordColumns(row)
      invariant |built| == j
      invariant forall k :: 0 <= k < j ==> built[k] == RecordFor(row, routes[k])
    {
      if !(StopIdColumn in row && StopNameColumn in row && LatitudeColumn in row && LongitudeColumn in row) {
        // KeyError while building the first record of this row
        return None;
      }
      built := built + [StationRecord(row[StopIdColumn], row[StopNameColumn], routes[j],
                                      row[LatitudeColumn], row[LongitudeColumn])];
      j := j + 1;
    }
    records := Some(built);
  }

  /** The handler's loops. The exception path keeps the records appended so
      far, as the `try` around the loop does. */
  method ListStations(rows: seq<Row>) returns (stations: seq<StationRecord>)
    ensures stations == Listing(rows)
  {
    stations := [];
    var i := 0;
    while i < |rows|
      invariant 0 <= i <= |rows|
      invariant Listing(rows) == stations + Listing(rows[i..])
    {
      var records := ExpandRow(rows[i]);
      if records.None? {
        assert Listing(rows[i..]) == [];
        return;
      }
      assert rows[i..][1..] == rows[i + 1..];
      stations := stations + records.value;
      i := i + 1;
    }
  }

  /** A row whose route field holds k tokens yields exactly k records, in
      token order, that agree on everything except `line`. */
  lemma RowRecordsPerRoute(row: Row)
    requires Expandable(row)
    ensures |RowRecords(row)| == |Routes(row)|
    ensures forall k :: 0 <= k < |Routes(row)| ==> RowRecords(row)[k].line == Routes(row)[k]
    ensures forall k, m :: 0 <= k < |Routes(row)| && 0 <= m < |Routes(row)| ==>
      RowRecords(row)[k].(line := "") == RowRecords(row)[m].(line := "")
    ensures forall k :: 0 <= k < |Routes(row)| ==>
      RowRecords(row)[k].stopId == row[StopIdColumn] && RowRecords(row)[k].stationName == row[StopNameColumn]
      && RowRecords(row)[k].lat == row[LatitudeColumn] && RowRecords(row)[k].lon == row[LongitudeColumn]
  {
  }

  /** An empty or blank route field yields no record, even when the other
      columns are missing. */
  lemma BlankRoutesYieldNothing(row: Row)
    requires HasRoutes(row)
    requires forall i :: 0 <= i < |row[RoutesColumn].value| ==> IsSpace(row[RoutesColumn].value[i])
    ensures Expandable(row) && RowRecords(row) == []
  {
    BlankSplit(row[RoutesColumn].value);
  }

  /** When every row expands, the listing is the rows' records concatenated
      in file order. */
  lemma {:induction false} ListingAppend(a: seq<Row>, b: seq<Row>)
    requires forall i :: 0 <= i < |a| ==> Expandable(a[i])
    ensures Listing(a + b) == Listing(a) + Listing(b)
    decreases |a|
  {
    if a == [] {
      assert a + b == b;
    } else {
      assert (a + b)[0] == a[0];
      assert (a + b)[1..] == a[1..] + b;
      ListingAppend(a[1..], b);
    }
  }

  /** A row that raises ends the listing: the records built from the rows
      before it are returned, and nothing after it contributes. */
  lemma {:induction false} ListingStopsAtFailure(rows: seq<Row>, i: nat)
    requires i < |rows| && !Expandable(rows[i])
    ensures Listing(rows) == Listing(rows[..i])
    decreases i
  {
    if i == 0 {
    } else if !Expandable(rows[0]) {
      assert rows[..i][0] == rows[0];
    } else {
      assert rows[..i][0] == rows[0];
      assert rows[..i][1..] == rows[1..][..i - 1];
      ListingStopsAtFailure(rows[1..], i - 1);
    }
  }

  /** Sample row: "A C E" with all columns present gives three records. */
  lemma ThreeRouteRow()
    ensures var row: Row := map[StopIdColumn := Some("A27"), StopNameColumn := Some("42 St-Port Authority"),
                                RoutesColumn := Some(" A C  E "), LatitudeColumn := Some("40.757308"),
                                LongitudeColumn := Some("-73.989735")];
      && Expandable(row) && |RowRecords(row)| == 3
      && RowRecords(row)[0].line == "A" && RowRecords(row)[1].line == "C" && RowRecords(row)[2].line == "E"
  {
    var row: Row := map[StopIdColumn := Some("A27"), StopNameColumn := Some("42 St-Port Authority"),
                        RoutesColumn := Some(" A C  E "), LatitudeColumn := Some("40.757308"),
                        LongitudeColumn := Some("-73.989735")];
    SplitSample();
  }
}
