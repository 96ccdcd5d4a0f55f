/** The station catalog preloaded at start-up (app.py:98-111) and the two
    lookups the train feed makes on it (app.py:137-138). */
module Catalog {
  import opened Wrappers
  import opened Stations

  /** `float(text)`, supplied by the caller: None when Python would raise
      ValueError. */
  type FloatParser = string -> Option<real>

  /** The two dictionaries as values. Keys are the stop-id cells, so a row
      whose stop id is None is stored under None, as Python stores it. */
  datatype Tables = Tables(
    coords: map<Option<string>, (real, real)>,
    names: map<Option<string>, Option<string>>)

  const EmptyTables := Tables(map[], map[])

  /** `float(row[col])`: KeyError for a missing column, TypeError for None,
      ValueError for text that is not a number. */
  function ParseCell(row: Row, column: string, toFloat: FloatParser): Option<real>
  {
    if column in row && row[column].Some? then toFloat(row[column].value) else None
  }

  /** One row of the preload: the stop id, both coordinates and the name are
      read before anything is stored, so a row either stores both entries or
      raises before storing any. */
  function LoadRow(t: Tables, row: Row, toFloat: FloatParser): (r: Option<Tables>)
    ensures r.Some? <==> Loads(row, toFloat)
    ensures r.Some? ==>
      && r.value.coords.Keys == t.coords.Keys + {row[StopIdColumn]}
      && r.value.names.Keys == t.names.Keys + {row[StopIdColumn]}
    ensures r.Some? ==>
      && r.value.coords[row[StopIdColumn]]
         == (ParseCell(row, LatitudeColumn, toFloat).value, ParseCell(row, LongitudeColumn, toFloat).value)
      && r.value.names[row[StopIdColumn]] == row[StopNameColumn]
    ensures r.Some? ==>
      forall id :: id in t.coords && id != row[StopIdColumn] ==> r.value.coords[id] == t.coords[id]
    ensures r.Some? ==>
      forall id :: id in t.names && id != row[StopIdColumn] ==> r.value.names[id] == t.names[id]
  {
    if StopIdColumn !in row then None
    else
      var stopId := row[StopIdColumn];
      match ParseCell(row, LatitudeColumn, toFloat)
      case None => None
      case Some(lat) =>
        match ParseCell(row, LongitudeColumn, toFloat)
        case None => None
        case Some(lon) =>
          if StopNameColumn !in row then None
          else Some(Tables(t.coords[stopId := (lat, lon)], t.names[stopId := row[StopNameColumn]]))
  }

  /** The preload loop: rows are stored in file order until one raises; the
      entries stored before it stay, because the dictionaries are filled in
      place. */
  function LoadRows(t: Tables, rows: seq<Row>, toFloat: FloatParser): Tables
    decreases |rows|
  {
    if rows == [] then t
    else match LoadRow(t, rows[0], toFloat)
      case None => t
      case Some(t') => LoadRows(t', rows[1..], toFloat)
  }

  /** The preload stores `row` instead of raising. */
  predicate Loads(row: Row, toFloat: FloatParser)
  {
    && StopIdColumn in row && StopNameColumn in row
    && ParseCell(row, LatitudeColumn, toFloat).Some?
    && ParseCell(row, LongitudeColumn, toFloat).Some?
  }

  /** The stop-id cell of a row; only used of rows that load. */
  function IdOf(row: Row): Option<string>
  {
    if StopIdColumn in row then row[StopIdColumn] else None
  }

  /** `station_names.get(stop_id, stop_id)`. */
  function NameOf(t: Tables, stopId: string): (name: Option<string>)
    ensures Some(stopId) in t.names ==> name == t.names[Some(stopId)]
    ensures Some(stopId) !in t.names ==> name == Some(stopId)
  {
    if Some(stopId) in t.names then t.names[Some(stopId)] else Some(stopId)
  }

  /** `station_coords.get(stop_id, (None, None))`. */
  function CoordsOf(t: Tables, stopId: string): (c: (Option<real>, Option<real>))
    ensures c.0.Some? <==> Some(stopId) in t.coords
    ensures c.1.Some? <==> Some(stopId) in t.coords
    ensures Some(stopId) in t.coords ==> (c.0.value, c.1.value) == t.coords[Some(stopId)]
  {
    if Some(stopId) in t.coords then (Some(t.coords[Some(stopId)].0), Some(t.coords[Some(stopId)].1))
    else (None, None)
  }

  /** The module-level `station_coords` / `station_names` dictionaries. */
  class StationCatalog {
    var coords: map<Option<string>, (real, real)>
    var names: map<Option<string>, Option<string>>

    function Snapshot(): Tables
      reads this
    {
      Tables(coords, names)
    }

    constructor ()
      ensures Snapshot() == EmptyTables
    {
      coords := map[];
      names := map[];
    }

    /** The preload block; each stored row updates both dictionaries in place. */
    method Preload(rows: seq<Row>, toFloat: FloatParser)
      modifies this
      ensures Snapshot() == LoadRows(old(Snapshot()), rows, toFloat)
    {
      var i := 0;
      while i < |rows|
        invariant 0 <= i <= |rows|
        invariant LoadRows(old(Snapshot()), rows, toFloat) == LoadRows(Snapshot(), rows[i..], toFloat)
      {
        var row := rows[i];
        assert rows[i..][0] == row && rows[i..][1..] == rows[i + 1..];
        if StopIdColumn !in row { return; }
        var stopId := row[StopIdColumn];
        var lat := ParseCell(row, LatitudeColumn, toFloat);
        if lat.None? { return; }
        var lon := ParseCell(row, LongitudeColumn, toFloat);
        if lon.None? { return; }
        if StopNameColumn !in row { return; }
        coords := coords[stopId := (lat.value, lon.value)];
        names := names[stopId := row[StopNameColumn]];
        i := i + 1;
      }
    }

    /** The name the train feed shows for a stop. */
    function StationName(stopId: string): Option<string>
      reads this
    {
      NameOf(Snapshot(), stopId)
    }

    /** The coordinates the train feed shows for a stop. */
    function StationCoords(stopId: string): (Option<real>, Option<real>)
      reads this
    {
      CoordsOf(Snapshot(), stopId)
    }
  }

  /** A row that raises ends the preload: the catalog is what the rows
      before it built. */
  lemma {:induction false} LoadStopsAtFailure(t: Tables, rows: seq<Row>, i: nat, toFloat: FloatParser)
    requires i < |rows| && !Loads(rows[i], toFloat)
    ensures LoadRows(t, rows, toFloat) == LoadRows(t, rows[..i], toFloat)
    decreases i
  {
    if i > 0 {
      assert rows[..i][0] == rows[0];
      assert rows[..i][1..] == rows[1..][..i - 1];
      match LoadRow(t, rows[0], toFloat)
      case None =>
      case Some(t') => LoadStopsAtFailure(t', rows[1..], i - 1, toFloat);
    }
  }

  /** The last row that carries a stop id decides its entries: a later row
      with the same id overwrites an earlier one. */
  lemma {:induction false} LastRowWins(t: Tables, rows: seq<Row>, i: nat, toFloat: FloatParser)
    requires forall j :: 0 <= j < |rows| ==> Loads(rows[j], toFloat)
    requires i < |rows|
    requires forall j :: i < j < |rows| ==> IdOf(rows[j]) != IdOf(rows[i])
    ensures var id := IdOf(rows[i]);
      var r := LoadRows(t, rows, toFloat);
      Loads(rows[i], toFloat) && id in r.coords && id in r.names
      && r.names[id] == rows[i][StopNameColumn]
      && r.coords[id] == (ParseCell(rows[i], LatitudeColumn, toFloat).value,
                          ParseCell(rows[i], LongitudeColumn, toFloat).value)
    decreases i
  {
    var t' := LoadRow(t, rows[0], toFloat).value;
    if i == 0 {
      KeptWhenNotOverwritten(t', rows[1..], IdOf(rows[0]), toFloat);
    } else {
      LastRowWins(t', rows[1..], i - 1, toFloat);
    }
  }

  /** Entries whose id no later row carries are left as they were. */
  lemma {:induction false} KeptWhenNotOverwritten(t: Tables, rows: seq<Row>, id: Option<string>, toFloat: FloatParser)
    requires forall j :: 0 <= j < |rows| ==> Loads(rows[j], toFloat)
    requires forall j :: 0 <= j < |rows| ==> IdOf(rows[j]) != id
    ensures var r := LoadRows(t, rows, toFloat);
      (id in r.coords <==> id in t.coords) && (id in t.coords ==> r.coords[id] == t.coords[id])
      && (id in r.names <==> id in t.names) && (id in t.names ==> r.names[id] == t.names[id])
    decreases |rows|
  {
    if rows != [] {
      KeptWhenNotOverwritten(LoadRow(t, rows[0], toFloat).value, rows[1..], id, toFloat);
    }
  }

  /** After a complete preload, a stop id that no row carries is a miss:
      the lookup falls back to the id itself and to no coordinates. */
  lemma MissFallsBack(rows: seq<Row>, stopId: string, toFloat: FloatParser)
    requires forall j :: 0 <= j < |rows| ==> Loads(rows[j], toFloat)
    requires forall j :: 0 <= j < |rows| ==> IdOf(rows[j]) != Some(stopId)
    ensures NameOf(LoadRows(EmptyTables, rows, toFloat), stopId) == Some(stopId)
    ensures CoordsOf(LoadRows(EmptyTables, rows, toFloat), stopId) == (None, None)
  {
    KeptWhenNotOverwritten(EmptyTables, rows, Some(stopId), toFloat);
  }

  /** After a complete preload, a stop id's lookups give the name and the
      coordinates of the last row carrying it. */
  lemma HitReturnsLastRow(rows: seq<Row>, i: nat, toFloat: FloatParser)
    requires forall j :: 0 <= j < |rows| ==> Loads(rows[j], toFloat)
    requires i < |rows| && IdOf(rows[i]).Some?
    requires forall j :: i < j < |rows| ==> IdOf(rows[j]) != IdOf(rows[i])
    ensures var stopId := IdOf(rows[i]).value;
      Loads(rows[i], toFloat)
      && NameOf(LoadRows(EmptyTables, rows, toFloat), stopId) == rows[i][StopNameColumn]
      && CoordsOf(LoadRows(EmptyTables, rows, toFloat), stopId)
         == (ParseCell(rows[i], LatitudeColumn, toFloat), ParseCell(rows[i], LongitudeColumn, toFloat))
  {
    LastRowWins(EmptyTables, rows, i, toFloat);
  }
}
