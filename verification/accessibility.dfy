/** The elevator and escalator outage endpoint (app.py:186-204): each
    outage object of the decoded feed is projected onto the fields the
    client shows, with defaults for missing keys. */
module Accessibility {
  import opened Wrappers
  import opened FeedRouter

  /** One decoded outage object; only the keys the handler reads. The
      equipment type comes under two spellings in different feed versions. */
  datatype OutageJson = OutageJson(
    station: Field<string>,
    equipment: Field<string>,
    equipmentTypeLower: Field<string>,   // "equipmenttype"
    equipmentTypeCamel: Field<string>,   // "equipmentType"
    ada: Field<string>,                  // "ADA"
    reason: Field<string>,
    estimatedReturnToService: Field<string>,
    trainNo: Field<string>)              // "trainno"

  /** One JSON record of the response. A field is None when the source key
      held an explicit null, which `.get(key, '')` passes through. */
  datatype Outage = Outage(
    station: Option<string>,
    equipment: Option<string>,
    equipmentType: Option<string>,
    accessible: string,
    reason: Option<string>,
    returnTime: Option<string>,
    line: Option<string>)

  /** `o.get('equipmenttype') or o.get('equipmentType', '')`. */
  function EquipmentType(o: OutageJson): (t: Option<string>)
    ensures Truthy(o.equipmentTypeLower) ==> t == Some(o.equipmentTypeLower.value)
    ensures !Truthy(o.equipmentTypeLower) && o.equipmentTypeCamel.Present? ==>
      t == Some(o.equipmentTypeCamel.value)
    ensures !Truthy(o.equipmentTypeLower) && o.equipmentTypeCamel.Absent? ==> t == Some("")
    ensures t.None? <==> !Truthy(o.equipmentTypeLower) && o.equipmentTypeCamel.Null?
  {
    if Truthy(o.equipmentTypeLower) then Get(o.equipmentTypeLower) else GetOr(o.equipmentTypeCamel, "")
  }

  /** `'Yes' if o.get('ADA', 'N') == 'Y' else 'No'`. */
  function Accessible(o: OutageJson): (a: string)
    ensures a == "Yes" <==> o.ada == Present("Y")
    ensures a == "No" <==> o.ada != Present("Y")
  {
    if GetOr(o.ada, "N") == Some("Y") then "Yes" else "No"
  }

  function Project(o: OutageJson): Outage
  {
    Outage(GetOr(o.station, ""), GetOr(o.equipment, ""), EquipmentType(o), Accessible(o),
           GetOr(o.reason, ""), GetOr(o.estimatedReturnToService, ""), GetOr(o.trainNo, ""))
  }

  /** The handler's loop: one projected record per outage, in feed order. */
  method ProjectOutages(data: seq<OutageJson>) returns (cleaned: seq<Outage>)
    ensures |cleaned| == |data|
    ensures forall i :: 0 <= i < |data| ==> cleaned[i] == Project(data[i])
  {
    cleaned := [];
    var i := 0;
    while i < |data|
      invariant 0 <= i <= |data|
      invariant |cleaned| == i
      invariant forall j :: 0 <= j < i ==> cleaned[j] == Project(data[j])
    {
      var o := data[i];
      var equipmentType := if o.equipmentTypeLower.Present? && o.equipmentTypeLower.value != ""
                           then Get(o.equipmentTypeLower) else GetOr(o.equipmentTypeCamel, "");
      var accessible := if GetOr(o.ada, "N") == Some("Y") then "Yes" else "No";
      cleaned := cleaned + [Outage(GetOr(o.station, ""), GetOr(o.equipment, ""), equipmentType, accessible,
                                   GetOr(o.reason, ""), GetOr(o.estimatedReturnToService, ""),
                                   GetOr(o.trainNo, ""))];
      i := i + 1;
    }
  }

  /** `get_accessibility()`, whose body is `{'accessibility': records}`.
      There is no routing step, so the outcome is never NotFound. */
  function AccessibilityOutcome(fetch: string -> Fetch<seq<OutageJson>>): Outcome<Outage>
  {
    match fetch(ElevatorOutagesFeed)
    case FetchFailed(fault) => Failed(fault)
    case Payload(data) => Records(seq(|data|, i requires 0 <= i < |data| => Project(data[i])))
  }

  method GetAccessibility(fetch: string -> Fetch<seq<OutageJson>>) returns (outcome: Outcome<Outage>)
    ensures outcome == AccessibilityOutcome(fetch)
  {
    var response := fetch(ElevatorOutagesFeed);
    if response.FetchFailed? {
      return Failed(response.fault);
    }
    var cleaned := ProjectOutages(response.payload);
    outcome := Records(cleaned);
  }

  /** Every field but `accessible` and `type` is the source value, "" for a
      missing key and None for an explicit null; `type` is the fallback of
      EquipmentType; `accessible` is "Yes" exactly when ADA is "Y", else "No". */
  lemma ProjectFields(o: OutageJson)
    ensures var r := Project(o);
      && r.accessible in {"Yes", "No"}
      && (r.accessible == "Yes" <==> o.ada == Present("Y"))
      && r.equipmentType == EquipmentType(o)
      && (o.station.Absent? ==> r.station == Some(""))
      && (o.station.Null? ==> r.station == None)
      && (o.station.Present? ==> r.station == Some(o.station.value))
      && r.equipment == GetOr(o.equipment, "")
      && r.reason == GetOr(o.reason, "")
      && r.returnTime == GetOr(o.estimatedReturnToService, "")
      && r.line == GetOr(o.trainNo, "")
  {
  }

  /** The outage object `{}`. */
  const NoKeys := OutageJson(Absent, Absent, Absent, Absent, Absent, Absent, Absent, Absent)

  /** `{"ADA": "Y"}` is accessible; `{}` is not. */
  lemma AdaSamples()
    ensures Project(NoKeys.(ada := Present("Y"))).accessible == "Yes"
    ensures Project(NoKeys).accessible == "No"
    ensures Project(NoKeys.(ada := Present("N"))).accessible == "No"
  {
  }

  /** The camel-cased key is used when the lower-case one is missing, null
      or empty. */
  lemma TypeFallbackSamples()
    ensures var both := NoKeys.(equipmentTypeLower := Present("ELEVATOR"),
                                equipmentTypeCamel := Present("ESCALATOR"));
      Project(both).equipmentType == Some("ELEVATOR")
    ensures var blank := NoKeys.(equipmentTypeLower := Present(""), equipmentTypeCamel := Present("ESCALATOR"));
      Project(blank).equipmentType == Some("ESCALATOR")
    ensures Project(NoKeys.(equipmentTypeLower := Null)).equipmentType == Some("")
  {
  }
}
