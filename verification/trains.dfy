/** The real-time trains endpoint (app.py:117-150): a decoded GTFS Realtime
    `FeedMessage` is flattened into one record per stop-time update and
    enriched from the station catalog. */
module Trains {
  import opened Wrappers
  import opened StringOps
  import opened FeedRouter
  import opened Catalog

  // The parts of the GTFS Realtime messages the handler reads. Scalar fields
  // the decoder leaves unset read as their defaults ("" and 0), so they are
  // plain values here; the message fields it tests with HasField are Options.

  /** `StopTimeEvent`; `time` is None when the event carries no time. */
  datatype StopTimeEvent = StopTimeEvent(time: Option<int>)

  datatype StopTimeUpdate = StopTimeUpdate(
    stopId: string,
    arrival: Option<StopTimeEvent>,
    departure: Option<StopTimeEvent>)

  datatype TripDescriptor = TripDescriptor(tripId: string)

  datatype TripUpdate = TripUpdate(trip: TripDescriptor, stopTimeUpdates: seq<StopTimeUpdate>)

  datatype FeedEntity = FeedEntity(id: string, tripUpdate: Option<TripUpdate>)

  datatype FeedMessage = FeedMessage(entities: seq<FeedEntity>)

  /** One JSON record of the response. */
  datatype TrainRecord = TrainRecord(
    tripId: string,
    station: Option<string>,
    arrival: Option<int>,
    departure: Option<int>,
    lat: Option<real>,
    lon: Option<real>)

  /** `event.time` of a present event; an unset time reads as 0. */
  function EventTime(e: Option<StopTimeEvent>): (t: Option<int>)
    ensures t.Some? <==> e.Some?
    ensures e.Some? && e.value.time.Some? ==> t == e.value.time
    ensures e.Some? && e.value.time.None? ==> t == Some(0)
  {
    match e
    case None => None
    case Some(ev) => Some(if ev.time.Some? then ev.time.value else 0)
  }

  /** The record for one stop-time update of trip `tripId`. */
  function TrainAt(tripId: string, u: StopTimeUpdate, t: Tables): TrainRecord
  {
    var (lat, lon) := CoordsOf(t, u.stopId);
    TrainRecord(tripId, NameOf(t, u.stopId), EventTime(u.arrival), EventTime(u.departure), lat, lon)
  }

  /** The records of one entity: none without a trip update, else one per
      stop-time update in order. */
  function EntityTrains(e: FeedEntity, t: Tables): (trains: seq<TrainRecord>)
    ensures e.tripUpdate.None? ==> trains == []
    ensures e.tripUpdate.Some? ==> |trains| == |e.tripUpdate.value.stopTimeUpdates|
  {
    match e.tripUpdate
    case None => []
    case Some(tu) =>
      var us := tu.stopTimeUpdates;
      seq(|us|, k requires 0 <= k < |us| => TrainAt(tu.trip.tripId, us[k], t))
  }

  /** The response body: the entities' records concatenated in feed order. */
  function FeedTrains(es: seq<FeedEntity>, t: Tables): seq<TrainRecord>
  {
    if es == [] then [] else FeedTrains(es[..|es| - 1], t) + EntityTrains(es[|es| - 1], t)
  }

  /** Number of stop-time updates carried by entities with a trip update. */
  function UpdateCount(es: seq<FeedEntity>): nat
  {
    if es == [] then 0
    else UpdateCount(es[..|es| - 1])
         + (if es[|es| - 1].tripUpdate.Some? then |es[|es| - 1].tripUpdate.value.stopTimeUpdates| else 0)
  }

  /** The inner loop over one entity's stop-time updates. */
  method EntityRecords(entity: FeedEntity, catalog: StationCatalog) returns (records: seq<TrainRecord>)
    ensures records == EntityTrains(entity, catalog.Snapshot())
  {
    records := [];
    if entity.tripUpdate.None? {
      return;
    }
    ghost var t := catalog.Snapshot();
    var tripId := entity.tripUpdate.value.trip.tripId;
    var us := entity.tripUpdate.value.stopTimeUpdates;
    var j := 0;
    while j < |us|
      invariant 0 <= j <= |us|
      invariant |records| == j
      invariant forall k :: 0 <= k < j ==> records[k] == TrainAt(tripId, us[k], t)
    {
      var stu := us[j];
      var arrival, departure := None, None;
      if stu.arrival.Some? {
        var time := stu.arrival.value.time;
        arrival := Some(if time.Some? then time.value else 0);
      }
      if stu.departure.Some? {
        var time := stu.departure.value.time;
        departure := Some(if time.Some? then time.value else 0);
      }
      var (lat, lon) := catalog.StationCoords(stu.stopId);
      var name := catalog.StationName(stu.stopId);
      assert TrainRecord(tripId, name, arrival, departure, lat, lon) == TrainAt(tripId, us[j], t);
      records := records + [TrainRecord(tripId, name, arrival, departure, lat, lon)];
      j := j + 1;
    }
  }

  /** The handler's loop over the feed's entities. */
  method FlattenFeed(feed: FeedMessage, catalog: StationCatalog) returns (trains: seq<TrainRecord>)
    ensures trains == FeedTrains(feed.entities, catalog.Snapshot())
  {
    var es := feed.entities;
    trains := [];
    var i := 0;
    while i < |es|
      invariant 0 <= i <= |es|
      invariant trains == FeedTrains(es[..i], catalog.Snapshot())
    {
      var records := EntityRecords(es[i], catalog);
      assert es[..i + 1][..i] == es[..i];
      trains := trains + records;
      i := i + 1;
    }
    assert es[..|es|] == es;
  }

  /** `realtime_trains(line)` up to the boundary: an unknown line group is
      answered without a fetch; a failed fetch or decode is caught. */
  function TrainsOutcome(line: string, fetch: string -> Fetch<FeedMessage>, t: Tables): Outcome<TrainRecord>
  {
    match ResolveLine(line)
    case None => NotFound
    case Some(url) =>
      match fetch(url)
      case FetchFailed(fault) => Failed(fault)
      case Payload(feed) => Records(FeedTrains(feed.entities, t))
  }

  method RealtimeTrains(line: string, fetch: string -> Fetch<FeedMessage>, catalog: StationCatalog)
    returns (outcome: Outcome<TrainRecord>)
    ensures outcome == TrainsOutcome(line, fetch, catalog.Snapshot())
  {
    var url := ResolveLine(line);
    if url.None? {
      return NotFound;
    }
    var response := fetch(url.value);
    match response
    case FetchFailed(fault) =>
      outcome := Failed(fault);
    case Payload(feed) =>
      var trains := FlattenFeed(feed, catalog);
      outcome := Records(trains);
  }

  // ---------------------------------------------------------------------
  // Properties
  // ---------------------------------------------------------------------

  lemma {:induction false} FeedTrainsAppend(a: seq<FeedEntity>, b: seq<FeedEntity>, t: Tables)
    ensures FeedTrains(a + b, t) == FeedTrains(a, t) + FeedTrains(b, t)
    ensures UpdateCount(a + b) == UpdateCount(a) + UpdateCount(b)
    decreases |b|
  {
    if b == [] {
      assert a + b == a;
    } else {
      var b' := b[..|b| - 1];
      assert (a + b)[..|a + b| - 1] == a + b';
      assert (a + b)[|a + b| - 1] == b[|b| - 1];
      FeedTrainsAppend(a, b', t);
    }
  }

  /** One record per stop-time update of the entities that carry a trip
      update; the others contribute nothing. */
  lemma {:induction false} FeedTrainsCount(es: seq<FeedEntity>, t: Tables)
    ensures |FeedTrains(es, t)| == UpdateCount(es)
    decreases |es|
  {
    if es != [] {
      FeedTrainsCount(es[..|es| - 1], t);
    }
  }

  /** Entity i's records sit, in update order, right after the records of
      the entities before it, and each carries that entity's trip id. */
  lemma {:induction false} FeedTrainsPlacement(es: seq<FeedEntity>, i: nat, t: Tables)
    requires i < |es| && es[i].tripUpdate.Some?
    ensures var us := es[i].tripUpdate.value.stopTimeUpdates;
      var off := UpdateCount(es[..i]);
      off + |us| <= |FeedTrains(es, t)|
      && forall k :: 0 <= k < |us| ==>
           FeedTrains(es, t)[off + k] == TrainAt(es[i].tripUpdate.value.trip.tripId, us[k], t)
    decreases |es|
  {
    var init := es[..|es| - 1];
    FeedTrainsCount(es[..i], t);
    if i < |es| - 1 {
      FeedTrainsPlacement(init, i, t);
      assert init[..i] == es[..i] && init[i] == es[i];
    } else {
      assert init == es[..i];
    }
  }

  /** Arrival and departure are set exactly when the update carries them,
      each independently of the other; a stop without either is a record
      with both unset, not an error. Name and coordinates come from the
      catalog lookups with their fallbacks. */
  lemma TrainAtFields(tripId: string, u: StopTimeUpdate, t: Tables)
    ensures var r := TrainAt(tripId, u, t);
      && r.tripId == tripId
      && (r.arrival.Some? <==> u.arrival.Some?)
      && (r.departure.Some? <==> u.departure.Some?)
      && (u.arrival.Some? && u.arrival.value.time.Some? ==> r.arrival == u.arrival.value.time)
      && (u.departure.Some? && u.departure.value.time.Some? ==> r.departure == u.departure.value.time)
      && r.station == NameOf(t, u.stopId)
      && (r.lat, r.lon) == CoordsOf(t, u.stopId)
  {
  }

  /** An unknown line group is answered with `[]` whatever the network
      would have returned: no fetch takes place. */
  lemma UnknownLineFetchesNothing(line: string, f1: string -> Fetch<FeedMessage>,
                                  f2: string -> Fetch<FeedMessage>, t: Tables)
    requires ToUpper(line) !in SubwayFeeds
    ensures TrainsOutcome(line, f1, t) == TrainsOutcome(line, f2, t) == NotFound
    ensures Respond(TrainsOutcome(line, f1, t)) == []
  {
  }

  /** A failed fetch (an HTTP 500, say) yields `[]`, never an exception. */
  lemma FailedFetchYieldsEmpty(line: string, fetch: string -> Fetch<FeedMessage>, t: Tables)
    requires ResolveLine(line).Some? && fetch(ResolveLine(line).value).FetchFailed?
    ensures TrainsOutcome(line, fetch, t).Failed?
    ensures Respond(TrainsOutcome(line, fetch, t)) == []
  {
  }

  /** "ace" and "ACE" get the same response. */
  lemma LineCaseDoesNotMatter(line: string, fetch: string -> Fetch<FeedMessage>, t: Tables)
    ensures TrainsOutcome(line, fetch, t) == TrainsOutcome(ToUpper(line), fetch, t)
  {
    ResolveLineIgnoresCase(line);
  }
}
