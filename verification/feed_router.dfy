/** The fixed tables that map an external line-group id or alert category to
    the URL of its feed (app.py:34-55), and the two lookups made on them. */
module FeedRouter {
  import opened Wrappers
  import opened StringOps

  const FeedBase := "https://api-endpoint.mta.info/Dataservice/mtagtfsfeeds/"

  /** One GTFS Realtime feed per line group; keys are upper case. */
  const SubwayFeeds: map<string, string> := map[
    "ACE" := FeedBase + "nyct%2Fgtfs-ace",
    "BDFMFS" := FeedBase + "nyct%2Fgtfs-bdfm",
    "G" := FeedBase + "nyct%2Fgtfs-g",
    "JZ" := FeedBase + "nyct%2Fgtfs-jz",
    "NQRW" := FeedBase + "nyct%2Fgtfs-nqrw",
    "L" := FeedBase + "nyct%2Fgtfs-l",
    "1234567S" := FeedBase + "nyct%2Fgtfs",
    "SIR" := FeedBase + "nyct%2Fgtfs-si"
  ]

  /** The single elevator and escalator outage feed. */
  const ElevatorOutagesFeed := FeedBase + "nyct%2Fnyct_ene.json"

  /** One JSON alert feed per category; keys are matched exactly. */
  const ServiceAlertFeeds: map<string, string> := map[
    "all_alerts" := FeedBase + "camsys%2Fall-alerts.json",
    "subway_alerts" := FeedBase + "camsys%2Fsubway-alerts.json",
    "bus_alerts" := FeedBase + "camsys%2Fbus-alerts.json",
    "lirr_alerts" := FeedBase + "camsys%2Flirr-alerts.json",
    "mnr_alerts" := FeedBase + "camsys%2Fmnr-alerts.json"
  ]

  /** `SUBWAY_FEEDS.get(line.upper())`: the id is case-folded, then looked
      up; a miss is None, never an error. */
  function ResolveLine(line: string): (url: Option<string>)
    ensures url.Some? <==> ToUpper(line) in SubwayFeeds
    ensures url.Some? ==> url.value == SubwayFeeds[ToUpper(line)] && url.value != ""
  {
    var key := ToUpper(line);
    if key in SubwayFeeds then Some(SubwayFeeds[key]) else None
  }

  /** `SERVICE_ALERTS_JSON.get(alert_type)`: exact, case-sensitive match. */
  function ResolveAlertCategory(category: string): (url: Option<string>)
    ensures url.Some? <==> category in ServiceAlertFeeds
    ensures url.Some? ==> url.value == ServiceAlertFeeds[category] && url.value != ""
  {
    if category in ServiceAlertFeeds then Some(ServiceAlertFeeds[category]) else None
  }

  /** Line ids are case-insensitive: an id and its upper-case form resolve
      to the same feed, so "ace" and "ACE" are one line group. */
  lemma ResolveLineIgnoresCase(line: string)
    ensures ResolveLine(line) == ResolveLine(ToUpper(line))
  {
    ToUpperIdempotent(line);
  }

  lemma LowerCaseLineResolves()
    ensures ResolveLine("ace") == ResolveLine("ACE") == Some(FeedBase + "nyct%2Fgtfs-ace")
    ensures ResolveLine("sir") == Some(FeedBase + "nyct%2Fgtfs-si")
  {
    assert ToUpper("ace") == "ACE";
    assert ToUpper("ACE") == "ACE";
    assert ToUpper("sir") == "SIR";
  }

  /** Alert categories are not case-folded. */
  lemma AlertCategoryIsCaseSensitive()
    ensures ResolveAlertCategory("subway_alerts").Some?
    ensures ResolveAlertCategory("SUBWAY_ALERTS") == None
  {
  }
}
