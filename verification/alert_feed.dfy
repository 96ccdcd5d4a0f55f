/** The service-alerts endpoint (app.py:210-262): route the category to its
    feed, fetch and decode it, build one record per entity, sort them by
    start time; any exception inside the `try` yields `[]`. */
module AlertFeed {
  import opened Wrappers
  import opened FeedRouter
  import opened Alerts
  import opened AlertOrder

  /** The decoded top-level object; only `entity` is read. */
  datatype AlertFeedJson = AlertFeedJson(entity: Field<seq<EntityJson>>)

  /** `data.get('entity', [])`; a null list raises when the loop iterates it. */
  function Entities(feed: AlertFeedJson): (r: Result<seq<EntityJson>>)
    ensures r.Raised? <==> feed.entity.Null?
    ensures feed.entity.Absent? ==> r == Ok([])
    ensures feed.entity.Present? ==> r == Ok(feed.entity.value)
  {
    match feed.entity
    case Absent => Ok([])
    case Null => Raised(NullValue)
    case Present(es) => Ok(es)
  }

  /** The records of the entity loop, in feed order; the first entity that
      raises aborts the whole loop. */
  function BuildAlerts(es: seq<EntityJson>): Result<seq<AlertRecord>>
  {
    if es == [] then Ok([])
    else match AlertOf(es[0])
      case Raised(fault) => Raised(fault)
      case Ok(a) =>
        match BuildAlerts(es[1..])
        case Raised(fault) => Raised(fault)
        case Ok(rest) => Ok([a] + rest)
  }

  /** `service_alerts(alert_type)` up to the boundary. */
  function AlertsOutcome(category: string, fetch: string -> Fetch<AlertFeedJson>): Outcome<AlertRecord>
  {
    match ResolveAlertCategory(category)
    case None => NotFound
    case Some(url) =>
      match fetch(url)
      case FetchFailed(fault) => Failed(fault)
      case Payload(feed) =>
        match Entities(feed)
        case Raised(fault) => Failed(fault)
        case Ok(es) =>
          match BuildAlerts(es)
          case Raised(fault) => Failed(fault)
          case Ok(alerts) =>
            match OrderAlerts(alerts)
            case Raised(fault) => Failed(fault)
            case Ok(sorted) => Records(sorted)
  }

  /** Records already built, in front of the outcome of the remaining
      entities; a fault in the rest discards them, as the `try` does. */
  function Prepend(done: seq<AlertRecord>, r: Result<seq<AlertRecord>>): Result<seq<AlertRecord>>
  {
    match r
    case Raised(fault) => Raised(fault)
    case Ok(rest) => Ok(done + rest)
  }

  /** One iteration of the entity loop, on the outcome it leaves to come. */
  lemma BuildStep(es: seq<EntityJson>, i: nat, done: seq<AlertRecord>)
    requires i < |es|
    ensures AlertOf(es[i]).Raised? ==>
      Prepend(done, BuildAlerts(es[i..])) == Raised(AlertOf(es[i]).fault)
    ensures AlertOf(es[i]).Ok? ==>
      Prepend(done, BuildAlerts(es[i..])) == Prepend(done + [AlertOf(es[i]).value], BuildAlerts(es[i + 1..]))
  {
    assert es[i..][0] == es[i] && es[i..][1..] == es[i + 1..];
    var rest := BuildAlerts(es[i + 1..]);
    if AlertOf(es[i]).Ok? && rest.Ok? {
      assert done + ([AlertOf(es[i]).value] + rest.value) == (done + [AlertOf(es[i]).value]) + rest.value;
    }
  }

  /** The handler's entity loop: records are appended in feed order and the
      first exception leaves the loop. */
  method BuildAll(es: seq<EntityJson>) returns (r: Result<seq<AlertRecord>>)
    ensures r == BuildAlerts(es)
  {
    var alerts: seq<AlertRecord> := [];
    var i := 0;
    assert es[0..] == es;
    if BuildAlerts(es).Ok? {
      assert [] + BuildAlerts(es).value == BuildAlerts(es).value;
    }
    while i < |es|
      invariant 0 <= i <= |es|
      invariant BuildAlerts(es) == Prepend(alerts, BuildAlerts(es[i..]))
    {
      var alert := MakeAlert(es[i]);
      BuildStep(es, i, alerts);
      if alert.Raised? {
        return Raised(alert.fault);
      }
      alerts := alerts + [alert.value];
      i := i + 1;
    }
    assert alerts + [] == alerts;
    r := Ok(alerts);
  }

  /** The handler: router, fetch, the entity loop, then the sort. */
  method ServiceAlerts(category: string, fetch: string -> Fetch<AlertFeedJson>)
    returns (outcome: Outcome<AlertRecord>)
    ensures outcome == AlertsOutcome(category, fetch)
  {
    var url := ResolveAlertCategory(category);
    if url.None? {
      return NotFound;
    }
    var response := fetch(url.value);
    if response.FetchFailed? {
      return Failed(response.fault);
    }
    var entities := Entities(response.payload);
    if entities.Raised? {
      return Failed(entities.fault);
    }
    var alerts := BuildAll(entities.value);
    if alerts.Raised? {
      return Failed(alerts.fault);
    }
    var ordered := OrderAlerts(alerts.value);
    if ordered.Raised? {
      return Failed(ordered.fault);
    }
    outcome := Records(ordered.value);
  }

  // ---------------------------------------------------------------------
  // Properties
  // ---------------------------------------------------------------------

  /** When every entity is built, the records are the entities' records in
      feed order. */
  lemma {:induction false} AllBuilt(es: seq<EntityJson>)
    requires forall j :: 0 <= j < |es| ==> AlertOf(es[j]).Ok?
    ensures BuildAlerts(es).Ok? && |BuildAlerts(es).value| == |es|
    ensures forall j :: 0 <= j < |es| ==> BuildAlerts(es).value[j] == AlertOf(es[j]).value
    decreases |es|
  {
    if es != [] {
      var tail := es[1..];
      forall j | 0 <= j < |tail| ensures AlertOf(tail[j]).Ok? {
        assert tail[j] == es[j + 1];
      }
      AllBuilt(tail);
      var r := BuildAlerts(es).value;
      assert r == [AlertOf(es[0]).value] + BuildAlerts(tail).value;
      forall j | 0 < j < |es| ensures r[j] == AlertOf(es[j]).value {
        assert tail[j - 1] == es[j];
      }
    }
  }

  /** Otherwise the fault of the first entity that raises is reported. */
  lemma {:induction false} FirstFaultReported(es: seq<EntityJson>, i: nat)
    requires i < |es| && AlertOf(es[i]).Raised?
    requires forall j :: 0 <= j < i ==> AlertOf(es[j]).Ok?
    ensures BuildAlerts(es) == Raised(AlertOf(es[i]).fault)
    decreases i
  {
    if i > 0 {
      var tail := es[1..];
      forall j | 0 <= j < i - 1 ensures AlertOf(tail[j]).Ok? {
        assert tail[j] == es[j + 1];
      }
      assert tail[i - 1] == es[i];
      FirstFaultReported(tail, i - 1);
    }
  }

  /** An unknown (case-sensitive) category is answered with `[]` whatever
      the network would have returned: no fetch takes place. */
  lemma UnknownCategoryFetchesNothing(category: string, f1: string -> Fetch<AlertFeedJson>,
                                      f2: string -> Fetch<AlertFeedJson>)
    requires category !in ServiceAlertFeeds
    ensures AlertsOutcome(category, f1) == AlertsOutcome(category, f2) == NotFound
    ensures Respond(AlertsOutcome(category, f1)) == []
  {
  }

  /** A successful response is the built records, stably sorted by start
      time: a sorted permutation in which alerts with equal start times
      keep their feed order. */
  lemma SuccessIsStableSort(category: string, fetch: string -> Fetch<AlertFeedJson>)
    requires AlertsOutcome(category, fetch).Records?
    ensures var url := ServiceAlertFeeds[category];
      var es := Entities(fetch(url).payload).value;
      var built := BuildAlerts(es).value;
      var r := AlertsOutcome(category, fetch).items;
      && fetch(url).Payload? && Entities(fetch(url).payload).Ok? && BuildAlerts(es).Ok?
      && multiset(r) == multiset(built)
      && (|built| >= 2 ==> AllKeyed(built))
      && (AllKeyed(built) ==> AllKeyed(r) && SortedByStart(r) && forall k :: WithStart(r, k) == WithStart(built, k))
  {
    var url := ServiceAlertFeeds[category];
    var built := BuildAlerts(Entities(fetch(url).payload).value).value;
    OrderAlertsOutcome(built);
  }

  /** Two or more alerts, one of them without a start time: the sort raises
      and the response is `[]`. */
  lemma MissingStartEmptiesResponse(category: string, fetch: string -> Fetch<AlertFeedJson>, i: nat)
    requires category in ServiceAlertFeeds
    requires fetch(ServiceAlertFeeds[category]).Payload?
    requires Entities(fetch(ServiceAlertFeeds[category]).payload).Ok?
    requires BuildAlerts(Entities(fetch(ServiceAlertFeeds[category]).payload).value).Ok?
    requires var built := BuildAlerts(Entities(fetch(ServiceAlertFeeds[category]).payload).value).value;
      |built| >= 2 && i < |built| && built[i].startTime.None?
    ensures AlertsOutcome(category, fetch) == Failed(Unorderable)
    ensures Respond(AlertsOutcome(category, fetch)) == []
  {
  }

  /** One entity whose `active_period` is an empty list empties the whole
      response. */
  lemma EmptyActivePeriodEmptiesResponse(category: string, fetch: string -> Fetch<AlertFeedJson>, i: nat)
    requires category in ServiceAlertFeeds
    requires fetch(ServiceAlertFeeds[category]).Payload?
    requires Entities(fetch(ServiceAlertFeeds[category]).payload).Ok?
    requires var es := Entities(fetch(ServiceAlertFeeds[category]).payload).value;
      i < |es| && es[i].alert.Present? && es[i].alert.value.activePeriod == Present([])
    ensures AlertsOutcome(category, fetch).Failed?
    ensures Respond(AlertsOutcome(category, fetch)) == []
  {
    var es := Entities(fetch(ServiceAlertFeeds[category]).payload).value;
    EmptyActivePeriodRaises(es[i]);
    var first := FirstRaised(es, i);
  }

  /** The position of the first entity that raises, at or before `k`. */
  lemma {:induction false} FirstRaised(es: seq<EntityJson>, k: nat) returns (first: nat)
    requires k < |es| && AlertOf(es[k]).Raised?
    ensures first <= k && AlertOf(es[first]).Raised?
    ensures forall j :: 0 <= j < first ==> AlertOf(es[j]).Ok?
    ensures BuildAlerts(es) == Raised(AlertOf(es[first]).fault)
    decreases k
  {
    if exists j :: 0 <= j < k && AlertOf(es[j]).Raised? {
      var j :| 0 <= j < k && AlertOf(es[j]).Raised?;
      first := FirstRaised(es, j);
    } else {
      first := k;
      FirstFaultReported(es, k);
    }
  }
}
