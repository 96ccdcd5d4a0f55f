/** Building one service-alert record from one entity of a decoded alert
    feed (app.py:223-255): the display-text fallback, the route and stop
    filters, the first active period's start and the Mercury extension. */
module Alerts {
  import opened Wrappers

  // The decoded JSON, with every key the handler reads as a Field (missing,
  // null or present). Keys it never reads are not represented.

  datatype Translation = Translation(text: Field<string>, language: Field<string>)

  datatype TranslatedString = TranslatedString(translation: Field<seq<Translation>>)

  datatype InformedEntity = InformedEntity(routeId: Field<string>, stopId: Field<string>)

  datatype ActivePeriod = ActivePeriod(start: Field<int>)

  /** The `transit_realtime.mercury_alert` extension object. */
  datatype MercuryAlert = MercuryAlert(alertType: Field<string>, createdAt: Field<int>, updatedAt: Field<int>)

  datatype AlertJson = AlertJson(
    headerText: Field<TranslatedString>,
    descriptionText: Field<TranslatedString>,
    informedEntity: Field<seq<InformedEntity>>,
    activePeriod: Field<seq<ActivePeriod>>,
    mercury: Field<MercuryAlert>)

  datatype EntityJson = EntityJson(id: Field<string>, alert: Field<AlertJson>)

  /** The `{}` that stands in for a missing `alert` key. */
  const EmptyAlert := AlertJson(Absent, Absent, Absent, Absent, Absent)

  /** One JSON record of the response. */
  datatype AlertRecord = AlertRecord(
    id: Option<string>,
    alertType: Option<string>,
    text: string,
    routes: seq<string>,
    stops: seq<string>,
    startTime: Option<int>,
    createdAt: Option<int>,
    updatedAt: Option<int>)

  // ---------------------------------------------------------------------
  // Display text
  // ---------------------------------------------------------------------

  /** `alert_info.get(key, {}).get('translation', [])`. A null text object
      raises at once (None has no `.get`); a null list comes back as None and
      raises only if a loop later iterates it. */
  function TranslationList(f: Field<TranslatedString>): (r: Result<Option<seq<Translation>>>)
    ensures r.Raised? <==> f.Null?
    ensures r == Ok(Some([])) <== f.Absent? || (f.Present? && f.value.translation.Absent?)
    ensures f.Present? && f.value.translation.Present? ==> r == Ok(Some(f.value.translation.value))
    ensures f.Present? && f.value.translation.Null? ==> r == Ok(None)
  {
    match f
    case Null => Raised(NullValue)
    case Absent => Ok(Some([]))
    case Present(ts) =>
      match ts.translation
      case Absent => Ok(Some([]))
      case Null => Ok(None)
      case Present(l) => Ok(Some(l))
  }

  /** `t.get("language") == lang and t.get("text")`. */
  predicate Matches(t: Translation, lang: string)
  {
    t.language == Present(lang) && Truthy(t.text)
  }

  /** The text of the first translation in `lang` with non-empty text, or ""
      when there is none. */
  function FirstText(ts: seq<Translation>, lang: string): string
  {
    if ts == [] then ""
    else if Matches(ts[0], lang) then ts[0].text.value
    else FirstText(ts[1..], lang)
  }

  /** One of the handler's `for t in ...: if ...: text = ...; break` loops. */
  method FindText(ts: seq<Translation>, lang: string) returns (text: string)
    ensures text == FirstText(ts, lang)
  {
    text := "";
    var i := 0;
    while i < |ts|
      invariant 0 <= i <= |ts|
      invariant FirstText(ts, lang) == FirstText(ts[i..], lang)
    {
      assert ts[i..][0] == ts[i] && ts[i..][1..] == ts[i + 1..];
      var t := ts[i];
      if t.language == Present(lang) && t.text.Present? && t.text.value != "" {
        text := t.text.value;
        break;
      }
      i := i + 1;
    }
  }

  /** The fallback chain: an English header, else an HTML English header,
      else an English description, else "". A null text object raises when
      it is read; a null translation list raises when its loop is reached. */
  function DisplayText(alert: AlertJson): Result<string>
  {
    match TranslationList(alert.headerText)
    case Raised(fault) => Raised(fault)
    case Ok(header) =>
      match TranslationList(alert.descriptionText)
      case Raised(fault) => Raised(fault)
      case Ok(description) =>
        if header.None? then Raised(NullValue)
        else if FirstText(header.value, "en") != "" then Ok(FirstText(header.value, "en"))
        else if FirstText(header.value, "en-html") != "" then Ok(FirstText(header.value, "en-html"))
        else if description.None? then Raised(NullValue)
        else Ok(FirstText(description.value, "en"))
  }

  /** Lines 227-244 as written: three search loops, each entered only while
      no text has been found. */
  method AlertText(alert: AlertJson) returns (r: Result<string>)
    ensures r == DisplayText(alert)
  {
    var text := "";
    var header := TranslationList(alert.headerText);
    if header.Raised? { return Raised(header.fault); }
    var description := TranslationList(alert.descriptionText);
    if description.Raised? { return Raised(description.fault); }
    if header.value.None? { return Raised(NullValue); }
    text := FindText(header.value.value, "en");
    if text == "" {
      text := FindText(header.value.value, "en-html");
    }
    if text == "" {
      if description.value.None? { return Raised(NullValue); }
      text := FindText(description.value.value, "en");
    }
    r := Ok(text);
  }

  // ---------------------------------------------------------------------
  // Routes and stops
  // ---------------------------------------------------------------------

  datatype IdKey = RouteKey | StopKey

  function IdField(e: InformedEntity, key: IdKey): Field<string>
  {
    match key
    case RouteKey => e.routeId
    case StopKey => e.stopId
  }

  /** `[e.get(key) for e in entities if e.get(key)]`. */
  function Ids(es: seq<InformedEntity>, key: IdKey): (ids: seq<string>)
    ensures |ids| <= |es|
    ensures forall i :: 0 <= i < |ids| ==> ids[i] != ""
  {
    if es == [] then []
    else (if Truthy(IdField(es[0], key)) then [IdField(es[0], key).value] else []) + Ids(es[1..], key)
  }

  // ---------------------------------------------------------------------
  // One alert record
  // ---------------------------------------------------------------------

  /** `alert_info.get("active_period", [{}])[0].get("start")`: a missing list
      means no start; a null list raises TypeError, an empty one IndexError. */
  function StartTime(f: Field<seq<ActivePeriod>>): (r: Result<Option<int>>)
    ensures f.Absent? ==> r == Ok(None)
    ensures f.Null? ==> r == Raised(NullValue)
    ensures f == Present([]) ==> r == Raised(EmptyActivePeriod)
    ensures f.Present? && f.value != [] ==> r == Ok(Get(f.value[0].start))
  {
    match f
    case Absent => Ok(None)
    case Null => Raised(NullValue)
    case Present(ps) => if ps == [] then Raised(EmptyActivePeriod) else Ok(Get(ps[0].start))
  }

  /** `alert_info.get(key, [])` for the informed entities. */
  function InformedList(f: Field<seq<InformedEntity>>): (r: Result<seq<InformedEntity>>)
    ensures r.Raised? <==> f.Null?
    ensures f.Absent? ==> r == Ok([])
    ensures f.Present? ==> r == Ok(f.value)
  {
    match f
    case Absent => Ok([])
    case Null => Raised(NullValue)
    case Present(es) => Ok(es)
  }

  /** `alert_info.get('transit_realtime.mercury_alert', {})`. */
  function Mercury(f: Field<MercuryAlert>): (r: Result<MercuryAlert>)
    ensures r.Raised? <==> f.Null?
    ensures f.Absent? ==> r == Ok(MercuryAlert(Absent, Absent, Absent))
    ensures f.Present? ==> r == Ok(f.value)
  {
    match f
    case Absent => Ok(MercuryAlert(Absent, Absent, Absent))
    case Null => Raised(NullValue)
    case Present(m) => Ok(m)
  }

  /** `entity.get('alert', {})`, where a null alert raises at its first use. */
  function AlertInfo(entity: EntityJson): (r: Result<AlertJson>)
    ensures r.Raised? <==> entity.alert.Null?
    ensures entity.alert.Absent? ==> r == Ok(EmptyAlert)
    ensures entity.alert.Present? ==> r == Ok(entity.alert.value)
  {
    match entity.alert
    case Absent => Ok(EmptyAlert)
    case Null => Raised(NullValue)
    case Present(a) => Ok(a)
  }

  /** The record for one entity, or the fault that aborts the handler. */
  function AlertOf(entity: EntityJson): Result<AlertRecord>
  {
    match AlertInfo(entity)
    case Raised(fault) => Raised(fault)
    case Ok(alert) =>
      match DisplayText(alert)
      case Raised(fault) => Raised(fault)
      case Ok(text) =>
        match Mercury(alert.mercury)
        case Raised(fault) => Raised(fault)
        case Ok(m) =>
          match InformedList(alert.informedEntity)
          case Raised(fault) => Raised(fault)
          case Ok(informed) =>
            match StartTime(alert.activePeriod)
            case Raised(fault) => Raised(fault)
            case Ok(start) =>
              Ok(AlertRecord(Get(entity.id), Get(m.alertType), text, Ids(informed, RouteKey),
                             Ids(informed, StopKey), start, Get(m.createdAt), Get(m.updatedAt)))
  }

  /** The body of the handler's entity loop. */
  method MakeAlert(entity: EntityJson) returns (r: Result<AlertRecord>)
    ensures r == AlertOf(entity)
  {
    var info := AlertInfo(entity);
    if info.Raised? { return Raised(info.fault); }
    var alert := info.value;
    var text := AlertText(alert);
    if text.Raised? { return Raised(text.fault); }
    var m := Mercury(alert.mercury);
    if m.Raised? { return Raised(m.fault); }
    var informed := InformedList(alert.informedEntity);
    if informed.Raised? { return Raised(informed.fault); }
    var start := StartTime(alert.activePeriod);
    if start.Raised? { return Raised(start.fault); }
    r := Ok(AlertRecord(Get(entity.id), Get(m.value.alertType), text.value,
                        Ids(informed.value, RouteKey), Ids(informed.value, StopKey),
                        start.value, Get(m.value.createdAt), Get(m.value.updatedAt)));
  }

  // ---------------------------------------------------------------------
  // Properties
  // ---------------------------------------------------------------------

  /** FirstText against its meaning: it is "" exactly when no translation
      matches, and otherwise the text of the earliest match. */
  lemma {:induction false} FirstTextIsFirstMatch(ts: seq<Translation>, lang: string)
    ensures FirstText(ts, lang) == "" <==> forall i :: 0 <= i < |ts| ==> !Matches(ts[i], lang)
    ensures forall i :: 0 <= i < |ts| && Matches(ts[i], lang)
                        && (forall j :: 0 <= j < i ==> !Matches(ts[j], lang)) ==>
              FirstText(ts, lang) == ts[i].text.value
    decreases |ts|
  {
    if ts != [] {
      FirstTextIsFirstMatch(ts[1..], lang);
      if !Matches(ts[0], lang) {
        forall i | 0 < i < |ts| && Matches(ts[i], lang) && (forall j :: 0 <= j < i ==> !Matches(ts[j], lang))
          ensures FirstText(ts, lang) == ts[i].text.value
        {
          assert ts[1..][i - 1] == ts[i];
          forall j | 0 <= j < i - 1 ensures !Matches(ts[1..][j], lang) {
            assert ts[1..][j] == ts[j + 1];
          }
        }
        forall i | 0 < i < |ts| ensures Matches(ts[i], lang) == Matches(ts[1..][i - 1], lang) {
        }
      }
    }
  }

  /** The fallback order when both lists can be read: the chosen text is
      the first of the three searches that finds anything, else "". */
  lemma DisplayTextFallback(alert: AlertJson, header: seq<Translation>, description: seq<Translation>)
    requires TranslationList(alert.headerText) == Ok(Some(header))
    requires TranslationList(alert.descriptionText) == Ok(Some(description))
    ensures (exists i :: 0 <= i < |header| && Matches(header[i], "en"))
            ==> DisplayText(alert) == Ok(FirstText(header, "en")) && FirstText(header, "en") != ""
    ensures (forall i :: 0 <= i < |header| ==> !Matches(header[i], "en"))
            && (exists i :: 0 <= i < |header| && Matches(header[i], "en-html"))
            ==> DisplayText(alert) == Ok(FirstText(header, "en-html")) && FirstText(header, "en-html") != ""
    ensures (forall i :: 0 <= i < |header| ==> !Matches(header[i], "en") && !Matches(header[i], "en-html"))
            ==> DisplayText(alert) == Ok(FirstText(description, "en"))
  {
    FirstTextIsFirstMatch(header, "en");
    FirstTextIsFirstMatch(header, "en-html");
  }

  /** The description is only read when no header matched: a null
      description list is harmless when a header translation is chosen. */
  lemma NullDescriptionListIgnoredWhenHeaderMatches(header: seq<Translation>, i: nat)
    requires i < |header| && (Matches(header[i], "en") || Matches(header[i], "en-html"))
    ensures DisplayText(AlertJson(Present(TranslatedString(Present(header))),
                                  Present(TranslatedString(Null)), Absent, Absent, Absent)).Ok?
  {
    FirstTextIsFirstMatch(header, "en");
    FirstTextIsFirstMatch(header, "en-html");
  }

  /** Only an "en-html" header "Delay": the text is "Delay". With an "en"
      header as well, the "en" one wins whatever the order. */
  lemma TextFallbackSamples()
    ensures var html := Translation(Present("Delay"), Present("en-html"));
      var en := Translation(Present("Late"), Present("en"));
      && DisplayText(EmptyAlert.(headerText := Present(TranslatedString(Present([html]))))) == Ok("Delay")
      && DisplayText(EmptyAlert.(headerText := Present(TranslatedString(Present([html, en]))))) == Ok("Late")
  {
    var html := Translation(Present("Delay"), Present("en-html"));
    var en := Translation(Present("Late"), Present("en"));
    assert [html, en][1..] == [en];
  }

  lemma {:induction false} IdsAppend(a: seq<InformedEntity>, b: seq<InformedEntity>, key: IdKey)
    ensures Ids(a + b, key) == Ids(a, key) + Ids(b, key)
    decreases |a|
  {
    if a == [] {
      assert a + b == b;
    } else {
      assert (a + b)[0] == a[0] && (a + b)[1..] == a[1..] + b;
      IdsAppend(a[1..], b, key);
      var head := if Truthy(IdField(a[0], key)) then [IdField(a[0], key).value] else [];
      assert Ids(a + b, key) == head + (Ids(a[1..], key) + Ids(b, key));
      assert head + (Ids(a[1..], key) + Ids(b, key)) == (head + Ids(a[1..], key)) + Ids(b, key);
    }
  }

  /** Ids keeps exactly the entities whose key is present and non-empty, in
      source order and with duplicates: together with IdsAppend this fixes
      the result entity by entity. */
  lemma IdsOfOne(e: InformedEntity, key: IdKey)
    ensures Ids([e], key) == if Truthy(IdField(e, key)) then [IdField(e, key).value] else []
  {
    assert [e][1..] == [];
  }

  /** A value is listed exactly when some entity carries it. */
  lemma {:induction false} IdsMembership(es: seq<InformedEntity>, key: IdKey, x: string)
    ensures x in Ids(es, key) <==> x != "" && exists i :: 0 <= i < |es| && IdField(es[i], key) == Present(x)
    decreases |es|
  {
    if es != [] {
      IdsMembership(es[1..], key, x);
      if x != "" && (exists i :: 0 <= i < |es| && IdField(es[i], key) == Present(x)) {
        var i :| 0 <= i < |es| && IdField(es[i], key) == Present(x);
        if i > 0 { assert IdField(es[1..][i - 1], key) == Present(x); }
      }
      if exists i :: 0 <= i < |es[1..]| && IdField(es[1..][i], key) == Present(x) {
        var i :| 0 <= i < |es[1..]| && IdField(es[1..][i], key) == Present(x);
        assert IdField(es[i + 1], key) == Present(x);
      }
    }
  }

  /** An entity may feed both lists; duplicates are kept. */
  lemma RoutesAndStopsSample()
    ensures var es := [InformedEntity(Present("A"), Present("A27")), InformedEntity(Present("A"), Absent),
                       InformedEntity(Present(""), Null), InformedEntity(Absent, Present("A28"))];
      Ids(es, RouteKey) == ["A", "A"] && Ids(es, StopKey) == ["A27", "A28"]
  {
    var es := [InformedEntity(Present("A"), Present("A27")), InformedEntity(Present("A"), Absent),
               InformedEntity(Present(""), Null), InformedEntity(Absent, Present("A28"))];
    assert es[1..][1..][1..][1..] == [];
  }

  /** An alert whose `active_period` is an empty list cannot be built. */
  lemma EmptyActivePeriodRaises(entity: EntityJson)
    requires entity.alert.Present? && entity.alert.value.activePeriod == Present([])
    ensures AlertOf(entity).Raised?
  {
  }

  /** A built record's fields are read as the source reads them. */
  lemma AlertOfFields(entity: EntityJson)
    requires AlertOf(entity).Ok?
    ensures var r := AlertOf(entity).value;
      var alert := if entity.alert.Present? then entity.alert.value else EmptyAlert;
      && entity.alert != Null
      && r.id == Get(entity.id)
      && DisplayText(alert) == Ok(r.text)
      && StartTime(alert.activePeriod) == Ok(r.startTime)
      && alert.activePeriod != Present([])
      && (alert.mercury.Present? ==>
            && r.alertType == Get(alert.mercury.value.alertType)
            && r.createdAt == Get(alert.mercury.value.createdAt)
            && r.updatedAt == Get(alert.mercury.value.updatedAt))
      && (alert.mercury.Absent? ==> r.alertType == None && r.createdAt == None && r.updatedAt == None)
      && (alert.informedEntity.Present? ==>
            && r.routes == Ids(alert.informedEntity.value, RouteKey)
            && r.stops == Ids(alert.informedEntity.value, StopKey))
      && (alert.informedEntity.Absent? ==> r.routes == [] && r.stops == [])
  {
  }
}
