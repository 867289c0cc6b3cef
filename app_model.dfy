/** The traffic-message part of the application's model: the fixed request
    parameters, the four-field row extracted from every message feature, and
    the `Model` object whose `messageData` holds the rows of the last response. */
module AppModel {
  import opened JsonTree

  const MessageUrl: string := "https://tie.digitraffic.fi/api/traffic-message/v1/messages"

  const SituationType: string := "situationType"
  const InactiveHours: string := "inactiveHours"
  const IncludeAreaGeometry: string := "includeAreaGeometry"

  const Features: string := "features"

  /** The four keys of a row, in the order the row is filled. */
  const CountryCode: string := "countryCode"
  const Municipality: string := "municipality"
  const RoadField: string := "road"
  const Description: string := "description"
  const FieldNames: seq<string> := [CountryCode, Municipality, RoadField, Description]

  /** One row of the message table: field name to value, None where the
      field's subscript chain raised. A JSON null that is present stays
      `Some(JNull)`, although Python shows it as None as well. */
  type Row = map<string, Option<Json>>

  /** How a call to `GetMessageData` can end with an exception: the request or
      the JSON decoding failed, or reading the decoded response raised. */
  datatype Failure = FetchFailed | Raised(error: PyError)

  /** The GET request the model issues: the endpoint and its query parameters. */
  datatype Request = Request(url: string, params: map<string, Json>)

  // ---------------------------------------------------------------- request

  /** The query parameters for a message request: the situation type chosen by
      the user, only active situations, and no area geometry. */
  function MessageParams(situationType: string): (params: map<string, Json>)
    ensures params.Keys == {SituationType, InactiveHours, IncludeAreaGeometry}
    ensures params[SituationType] == JStr(situationType)
    ensures params[InactiveHours] == JNum(0) && params[IncludeAreaGeometry] == JBool(false)
  {
    map[SituationType := JStr(situationType),
        InactiveHours := JNum(0),
        IncludeAreaGeometry := JBool(false)]
  }

  /** The situation type is the only thing a request depends on, and it can be
      read back from the request. */
  lemma ParamsDependOnlyOnType(a: string, b: string)
    ensures forall k :: k in MessageParams(a) && k != SituationType ==>
              k in MessageParams(b) && MessageParams(a)[k] == MessageParams(b)[k]
    ensures MessageParams(a) == MessageParams(b) <==> a == b
  {
    if MessageParams(a) == MessageParams(b) {
      assert MessageParams(a)[SituationType] == MessageParams(b)[SituationType];
    }
  }

  // ---------------------------------------------------------------- one row

  /** `feature['properties']['announcements'][0]`, shared by all four fields. */
  const AnnouncementPath: Path := [Key("properties"), Key("announcements"), Idx(0)]
  /** `...[0]['location']`, shared by countryCode and description. */
  const LocationPath: Path := AnnouncementPath + [Key("location")]
  /** `...[0]['locationDetails']['roadAddressLocation']['primaryPoint']`,
      shared by municipality and road. */
  const PrimaryPointPath: Path :=
    AnnouncementPath + [Key("locationDetails"), Key("roadAddressLocation"), Key("primaryPoint")]

  /** The dict that holds a field under the field's own name. */
  function ParentOf(name: string): Path
    requires name in FieldNames
  {
    if name == CountryCode || name == Description then LocationPath
    else if name == Municipality then PrimaryPointPath
    else PrimaryPointPath + [Key("roadAddress")]
  }

  /** The full subscript chain of a field, from the feature to its value;
      written out, these are the four chains of the row. */
  function PathOf(name: string): (path: Path)
    requires name in FieldNames
    ensures name == CountryCode ==>
              path == [Key("properties"), Key("announcements"), Idx(0), Key("location"), Key("countryCode")]
    ensures name == Description ==>
              path == [Key("properties"), Key("announcements"), Idx(0), Key("location"), Key("description")]
    ensures name == Municipality ==>
              path == [Key("properties"), Key("announcements"), Idx(0), Key("locationDetails"),
                       Key("roadAddressLocation"), Key("primaryPoint"), Key("municipality")]
    ensures name == RoadField ==>
              path == [Key("properties"), Key("announcements"), Idx(0), Key("locationDetails"),
                       Key("roadAddressLocation"), Key("primaryPoint"), Key("roadAddress"), Key("road")]
  {
    ParentOf(name) + [Key(name)]
  }

  /** The row built from one feature: exactly the four keys, each filled from
      its own chain with its own fall-back to None (see `RowShape`). */
  function RowOf(feature: Json): (row: Row)
    ensures row.Keys == {CountryCode, Municipality, RoadField, Description}
  {
    map[CountryCode := Lookup(feature, PathOf(CountryCode)),
        Municipality := Lookup(feature, PathOf(Municipality)),
        RoadField := Lookup(feature, PathOf(RoadField)),
        Description := Lookup(feature, PathOf(Description))]
  }

  /** Each field of a row holds the value at the end of that field's own chain,
      or None when that chain raised. */
  lemma RowShape(feature: Json)
    ensures forall name :: name in FieldNames ==> RowOf(feature)[name] == Lookup(feature, PathOf(name))
  {
  }

  /** The row of a feature without a usable first announcement. */
  const EmptyRow: Row :=
    map[CountryCode := None, Municipality := None, RoadField := None, Description := None]

  /** When `announcements[0]` cannot be reached, or is reached but is not a
      dict (a number, a str, a list, ...), all four fields are None; the row
      is still produced. */
  lemma NoAnnouncementGivesEmptyRow(feature: Json)
    requires Lookup(feature, AnnouncementPath).None? || !Lookup(feature, AnnouncementPath).value.JObj?
    ensures RowOf(feature) == EmptyRow
  {
    LookupAppend(feature, AnnouncementPath, [Key("location"), Key(CountryCode)]);
    LookupAppend(feature, AnnouncementPath, [Key("location"), Key(Description)]);
    LookupAppend(feature, AnnouncementPath,
      [Key("locationDetails"), Key("roadAddressLocation"), Key("primaryPoint"), Key(Municipality)]);
    LookupAppend(feature, AnnouncementPath,
      [Key("locationDetails"), Key("roadAddressLocation"), Key("primaryPoint"), Key("roadAddress"), Key(RoadField)]);
    assert PathOf(CountryCode) == AnnouncementPath + [Key("location"), Key(CountryCode)];
    assert PathOf(Description) == AnnouncementPath + [Key("location"), Key(Description)];
    assert PathOf(Municipality) == AnnouncementPath +
      [Key("locationDetails"), Key("roadAddressLocation"), Key("primaryPoint"), Key(Municipality)];
    assert PathOf(RoadField) == AnnouncementPath +
      [Key("locationDetails"), Key("roadAddressLocation"), Key("primaryPoint"), Key("roadAddress"), Key(RoadField)];
  }

  /** The common cases of the lemma above, for every feature: `properties`
      cannot be read, `announcements` cannot be read, or `announcements` is an
      empty list. */
  lemma MissingOrEmptyAnnouncementsGiveEmptyRow(feature: Json)
    ensures Lookup(feature, [Key("properties")]) == None ==> RowOf(feature) == EmptyRow
    ensures Lookup(feature, [Key("properties"), Key("announcements")]) == None ==> RowOf(feature) == EmptyRow
    ensures Lookup(feature, [Key("properties"), Key("announcements")]) == Some(JArr([])) ==>
              RowOf(feature) == EmptyRow
  {
    assert AnnouncementPath == [Key("properties")] + [Key("announcements"), Idx(0)];
    assert AnnouncementPath == [Key("properties"), Key("announcements")] + [Idx(0)];
    LookupAppend(feature, [Key("properties")], [Key("announcements"), Idx(0)]);
    LookupAppend(feature, [Key("properties"), Key("announcements")], [Idx(0)]);
    if Lookup(feature, AnnouncementPath) == None {
      NoAnnouncementGivesEmptyRow(feature);
    }
  }

  /** countryCode and description share `announcements[0]['location']`: when
      that is missing both are None. */
  lemma MissingLocationClearsCountryAndDescription(feature: Json)
    requires Lookup(feature, LocationPath) == None
    ensures RowOf(feature)[CountryCode] == None && RowOf(feature)[Description] == None
  {
    PrefixFailurePropagates(feature, LocationPath, [Key(CountryCode)]);
    PrefixFailurePropagates(feature, LocationPath, [Key(Description)]);
  }

  /** A feature whose only announcement has `locationDetails` leading to
      `point`, and no `location`. */
  function FeatureWithPointOnly(point: Json): Json
  {
    var details := JObj(map["roadAddressLocation" := JObj(map["primaryPoint" := point])]);
    JObj(map["properties" := JObj(map["announcements" := JArr([JObj(map["locationDetails" := details])])])])
  }

  /** The announcement of `FeatureWithPointOnly` is reachable, its `location` is not. */
  lemma FeatureWithPointOnlyLacksLocation(point: Json)
    ensures Lookup(FeatureWithPointOnly(point), AnnouncementPath).Some?
    ensures Lookup(FeatureWithPointOnly(point), LocationPath) == None
  {
    var feature := FeatureWithPointOnly(point);
    var props := feature.fields["properties"];
    var announcement := props.fields["announcements"].items[0];
    assert Lookup(props.fields["announcements"], [Idx(0)]) == Some(announcement);
    LookupAppend(props, [Key("announcements")], [Idx(0)]);
    LookupAppend(feature, [Key("properties")], [Key("announcements"), Idx(0)]);
    LookupAppend(feature, AnnouncementPath, [Key("location")]);
  }

  /** The primary point of `FeatureWithPointOnly` is reachable. */
  lemma FeatureWithPointOnlyReachesPoint(point: Json)
    ensures Lookup(FeatureWithPointOnly(point), PrimaryPointPath) == Some(point)
  {
    var feature := FeatureWithPointOnly(point);
    FeatureWithPointOnlyLacksLocation(point);
    var announcement := Lookup(feature, AnnouncementPath).value;
    var details := announcement.fields["locationDetails"];
    var toPoint := [Key("locationDetails"), Key("roadAddressLocation"), Key("primaryPoint")];
    LookupAppend(details, [Key("roadAddressLocation")], [Key("primaryPoint")]);
    LookupAppend(announcement, [Key("locationDetails")], toPoint[1..]);
    LookupAppend(feature, AnnouncementPath, toPoint);
  }

  /** The municipality and road of `FeatureWithPointOnly` are read from `point`. */
  lemma FeatureWithPointOnlyRow(point: Json)
    ensures RowOf(FeatureWithPointOnly(point))[Municipality] == Lookup(point, [Key(Municipality)])
    ensures RowOf(FeatureWithPointOnly(point))[RoadField] == Lookup(point, [Key("roadAddress"), Key(RoadField)])
  {
    var feature := FeatureWithPointOnly(point);
    FeatureWithPointOnlyReachesPoint(point);
    assert PathOf(Municipality) == PrimaryPointPath + [Key(Municipality)];
    assert PathOf(RoadField) == PrimaryPointPath + [Key("roadAddress"), Key(RoadField)];
    LookupAppend(feature, PrimaryPointPath, [Key(Municipality)]);
    LookupAppend(feature, PrimaryPointPath, [Key("roadAddress"), Key(RoadField)]);
  }

  /** ... while municipality and road, which do not go through `location`, can
      still be present, with any values. */
  lemma MissingLocationKeepsRoadAddress(municipality: Json, road: Json)
    ensures exists feature :: Lookup(feature, LocationPath) == None &&
              RowOf(feature)[Municipality] == Some(municipality) && RowOf(feature)[RoadField] == Some(road)
  {
    var roadAddress := JObj(map[RoadField := road]);
    var point := JObj(map[Municipality := municipality, "roadAddress" := roadAddress]);
    FeatureWithPointOnlyLacksLocation(point);
    FeatureWithPointOnlyRow(point);
    LookupAppend(point, [Key("roadAddress")], [Key(RoadField)]);
    assert Lookup(roadAddress, [Key(RoadField)]) == Some(road);
    assert Lookup(point, [Key(Municipality)]) == Some(municipality);
    var feature := FeatureWithPointOnly(point);
    assert Lookup(feature, LocationPath) == None;
  }

  /** The same for every feature: taking `location` out of the first
      announcement clears countryCode and description and leaves municipality
      and road as they were. */
  lemma RemovingLocationKeepsRoadAddress(feature: Json)
    ensures RowOf(DeleteKey(feature, AnnouncementPath, "location"))[CountryCode] == None
    ensures RowOf(DeleteKey(feature, AnnouncementPath, "location"))[Description] == None
    ensures RowOf(DeleteKey(feature, AnnouncementPath, "location"))[Municipality] == RowOf(feature)[Municipality]
    ensures RowOf(DeleteKey(feature, AnnouncementPath, "location"))[RoadField] == RowOf(feature)[RoadField]
  {
    DeleteKeyRemoves(feature, AnnouncementPath, "location");
    MissingLocationClearsCountryAndDescription(DeleteKey(feature, AnnouncementPath, "location"));
    assert PathOf(Municipality)[3] != LocationPath[3];
    assert PathOf(RoadField)[3] != LocationPath[3];
    DeleteKeyElsewhere(feature, AnnouncementPath, "location", PathOf(Municipality));
    DeleteKeyElsewhere(feature, AnnouncementPath, "location", PathOf(RoadField));
  }

  /** The paths of two different fields turn apart somewhere. */
  lemma FieldPathsDiverge(a: string, b: string)
    requires a in FieldNames && b in FieldNames && a != b
    ensures Diverge(PathOf(a), PathOf(b))
  {
    var pa, pb := PathOf(a), PathOf(b);
    if ParentOf(a) == ParentOf(b) {
      assert pa[|ParentOf(a)|] != pb[|ParentOf(a)|];
    } else if (a == CountryCode || a == Description) != (b == CountryCode || b == Description) {
      assert pa[3] != pb[3];
    } else {
      assert pa[6] != pb[6];
    }
  }

  /** Per-field isolation: taking one field's key out of a feature makes that
      field None and leaves the other three fields of the row as they were. */
  lemma RemovingOneFieldKeepsTheOthers(feature: Json, name: string)
    requires name in FieldNames
    ensures RowOf(DeleteKey(feature, ParentOf(name), name))[name] == None
    ensures forall other :: other in FieldNames && other != name ==>
              RowOf(DeleteKey(feature, ParentOf(name), name))[other] == RowOf(feature)[other]
  {
    DeleteKeyRemoves(feature, ParentOf(name), name);
    forall other | other in FieldNames && other != name
      ensures RowOf(DeleteKey(feature, ParentOf(name), name))[other] == RowOf(feature)[other]
    {
      FieldPathsDiverge(other, name);
      DeleteKeyElsewhere(feature, ParentOf(name), name, PathOf(other));
    }
  }

  /** A field depends only on what lies along its own path: assigning anything
      anywhere off that path leaves the field as it was. */
  lemma FieldDependsOnlyOnItsPath(feature: Json, p: Path, v: Json, name: string)
    requires name in FieldNames && Diverge(PathOf(name), p)
    ensures RowOf(ReplaceAt(feature, p, v))[name] == RowOf(feature)[name]
  {
    ReplaceAtElsewhere(feature, p, v, PathOf(name));
  }

  /** Per-field isolation for values: giving one field a new value in the
      feature changes only that field of the row, and the field takes the new
      value whenever the dict that holds it exists. */
  lemma SettingOneFieldKeepsTheOthers(feature: Json, name: string, v: Json)
    requires name in FieldNames
    ensures Lookup(feature, ParentOf(name)).Some? && Lookup(feature, ParentOf(name)).value.JObj? ==>
              RowOf(ReplaceAt(feature, PathOf(name), v))[name] == Some(v)
    ensures forall other :: other in FieldNames && other != name ==>
              RowOf(ReplaceAt(feature, PathOf(name), v))[other] == RowOf(feature)[other]
  {
    if Lookup(feature, ParentOf(name)).Some? && Lookup(feature, ParentOf(name)).value.JObj? {
      ReplaceAtSets(feature, ParentOf(name), name, v);
    }
    forall other | other in FieldNames && other != name
      ensures RowOf(ReplaceAt(feature, PathOf(name), v))[other] == RowOf(feature)[other]
    {
      FieldPathsDiverge(other, name);
      FieldDependsOnlyOnItsPath(feature, PathOf(name), v, other);
    }
  }

  // ---------------------------------------------------------------- all rows

  /** One row per item, in the order of the items. */
  function RowsOf(items: seq<Json>): (rows: seq<Row>)
    ensures |rows| == |items|
    ensures forall i :: 0 <= i < |items| ==> rows[i] == RowOf(items[i])
  {
    if items == [] then []
    else RowsOf(items[..|items| - 1]) + [RowOf(items[|items| - 1])]
  }

  /** Walking one more item appends that item's row. */
  lemma RowsOfAppend(items: seq<Json>, i: nat)
    requires i < |items|
    ensures RowsOf(items[..i + 1]) == RowsOf(items[..i]) + [RowOf(items[i])]
  {
    assert items[..i + 1][..i] == items[..i];
  }

  /** What Python's `for` yields when it walks a str: one-character strs. */
  function Chars(s: string): (items: seq<Json>)
    ensures |items| == |s|
    ensures forall i :: 0 <= i < |s| ==> items[i] == JStr([s[i]])
  {
    seq(|s|, i requires 0 <= i < |s| => JStr([s[i]]))
  }

  /** A str is not subscriptable by key, so a str item gives an empty row. */
  lemma StrItemGivesEmptyRow(s: string)
    ensures RowOf(JStr(s)) == EmptyRow
  {
    NoAnnouncementGivesEmptyRow(JStr(s));
  }

  /** Rows of items that are all strs: all empty. */
  lemma StrItemsGiveEmptyRows(items: seq<Json>)
    requires forall i :: 0 <= i < |items| ==> items[i].JStr?
    ensures forall i :: 0 <= i < |items| ==> RowsOf(items)[i] == EmptyRow
  {
    forall i | 0 <= i < |items|
      ensures RowsOf(items)[i] == EmptyRow
    {
      StrItemGivesEmptyRow(items[i].s);
    }
  }

  /** The whole normalisation of a decoded response: `data['features']` is not
      guarded, so a response that is not a dict, or lacks `features`, raises;
      otherwise one row per item the `for` loop visits. */
  function MessageRows(data: Json): (r: Result<seq<Row>, PyError>)
    ensures !data.JObj? ==> r == Err(TypeError)
    ensures data.JObj? && Features !in data.fields ==> r == Err(KeyError)
    ensures data.JObj? && Features in data.fields && data.fields[Features].JArr? ==>
              r.Ok? && |r.value| == |data.fields[Features].items| &&
              forall i :: 0 <= i < |r.value| ==> r.value[i] == RowOf(data.fields[Features].items[i])
    ensures data.JObj? && Features in data.fields &&
            !(data.fields[Features].JArr? || data.fields[Features].JStr? || data.fields[Features].JObj?) ==>
              r == Err(TypeError)
    ensures r.Ok? && |r.value| > 0 ==> data.JObj? && Features in data.fields
  {
    match Subscript(data, Key(Features))
    case Err(e) => Err(e)
    case Ok(features) => FeatureRows(features)
  }

  /** The rows of `for feature in features`: a list is walked item by item; a
      str character by character and a dict key by key, every such item a str
      and so its row empty; a null, bool or number is not iterable. */
  function FeatureRows(features: Json): (r: Result<seq<Row>, PyError>)
    ensures r.Err? <==> !(features.JArr? || features.JStr? || features.JObj?)
    ensures r.Err? ==> r.error == TypeError
    ensures features.JArr? ==>
              |r.value| == |features.items| &&
              forall i :: 0 <= i < |features.items| ==> r.value[i] == RowOf(features.items[i])
    ensures features.JStr? ==>
              |r.value| == |features.s| && forall i :: 0 <= i < |r.value| ==> r.value[i] == EmptyRow
    ensures features.JObj? ==>
              |r.value| == |features.fields| && forall i :: 0 <= i < |r.value| ==> r.value[i] == EmptyRow
  {
    match features
    case JArr(xs) => Ok(RowsOf(xs))
    case JStr(s) => StrItemsGiveEmptyRows(Chars(s)); Ok(RowsOf(Chars(s)))
    case JObj(m) => Ok(seq(|m|, _ => EmptyRow))
    case _ => Err(TypeError)
  }

  /** A response whose `features` is a str or a dict still gives a row per
      character or key, every one of them empty. */
  lemma NonListFeaturesGiveEmptyRows(data: Json)
    requires data.JObj? && Features in data.fields
    requires data.fields[Features].JStr? || data.fields[Features].JObj?
    ensures MessageRows(data).Ok?
    ensures forall i :: 0 <= i < |MessageRows(data).value| ==> MessageRows(data).value[i] == EmptyRow
    ensures data.fields[Features].JStr? ==> |MessageRows(data).value| == |data.fields[Features].s|
    ensures data.fields[Features].JObj? ==> |MessageRows(data).value| == |data.fields[Features].fields|
  {
    if data.fields[Features].JStr? {
      StrItemsGiveEmptyRows(Chars(data.fields[Features].s));
    }
  }

  // ---------------------------------------------------------------- the object

  /** The model object of the application. */
  class Model {
    const messageUrl: string
    /** The rows of the last message response. */
    var messageData: seq<Row>

    constructor ()
      ensures messageUrl == MessageUrl && messageData == []
    {
      messageUrl := MessageUrl;
      messageData := [];
    }

    /** Issues the request for `situationType` and handles its outcome
        `response`: None when the request or the JSON decoding raised, else the
        decoded body. A failed fetch escapes before `messageData` is touched,
        so the rows of the previous call stay. Otherwise `messageData` is
        cleared and refilled with the rows of this response; when reading
        `data['features']` raises, that exception escapes and `messageData`
        stays empty. */
    method GetMessageData(situationType: string, response: Option<Json>)
      returns (request: Request, failure: Option<Failure>)
      modifies this
      ensures request == Request(messageUrl, MessageParams(situationType))
      ensures response.None? ==> failure == Some(FetchFailed) && messageData == old(messageData)
      ensures response.Some? && MessageRows(response.value).Ok? ==>
                failure == None && messageData == MessageRows(response.value).value
      ensures response.Some? && MessageRows(response.value).Err? ==>
                failure == Some(Raised(MessageRows(response.value).error)) && messageData == []
    {
      request := Request(messageUrl, MessageParams(situationType));
      if response.None? {
        failure := Some(FetchFailed);
        return;
      }
      var raised := ReplaceMessageData(response.value);
      failure := if raised.Some? then Some(Raised(raised.value)) else None;
    }

    /** The part of the call after the response is decoded: clear
        `messageData`, read `data['features']` unguarded, and append one row per
        item the `for` loop visits. `raised` is the exception that escapes. */
    method ReplaceMessageData(data: Json) returns (raised: Option<PyError>)
      modifies this
      ensures MessageRows(data).Ok? ==> raised == None && messageData == MessageRows(data).value
      ensures MessageRows(data).Err? ==> raised == Some(MessageRows(data).error) && messageData == []
    {
      messageData := [];
      var features := Subscript(data, Key(Features));
      if features.Err? {
        raised := Some(features.error);
        return;
      }
      var items := IterItems(features.value);
      if items.None? {
        raised := Some(TypeError);
        return;
      }
      var i := 0;
      while i < |items.value|
        invariant 0 <= i <= |items.value|
        invariant messageData == RowsOf(items.value[..i])
      {
        var row := BuildRow(items.value[i]);
        RowsOfAppend(items.value, i);
        messageData := messageData + [row];
        i := i + 1;
      }
      assert items.value[..i] == items.value;
      raised := None;
    }
  }

  /** What Python's `for` walks when it iterates `features`: the items of a
      list, the characters of a str, the keys of a dict; None when `features`
      is not iterable. Their rows are exactly `FeatureRows(features)`. */
  method IterItems(features: Json) returns (items: Option<seq<Json>>)
    ensures items.None? <==> FeatureRows(features).Err?
    ensures items.Some? ==> RowsOf(items.value) == FeatureRows(features).value
    ensures features.JArr? ==> items == Some(features.items)
  {
    match features {
      case JArr(xs) => items := Some(xs);
      case JStr(s) => items := Some(Chars(s));
      case JObj(m) =>
        var keys := DictKeys(m);
        StrItemsGiveEmptyRows(keys);
        assert RowsOf(keys) == seq(|m|, _ => EmptyRow);
        items := Some(keys);
      case _ => items := None;
    }
  }

  /** Fills one row field by field, each from its own guarded chain. */
  method BuildRow(feature: Json) returns (row: Row)
    ensures row == RowOf(feature)
  {
    row := map[];
    row := row[CountryCode := Lookup(feature, PathOf(CountryCode))];
    row := row[Municipality := Lookup(feature, PathOf(Municipality))];
    row := row[RoadField := Lookup(feature, PathOf(RoadField))];
    row := row[Description := Lookup(feature, PathOf(Description))];
  }

  /** The keys of a dict, as the strs a `for` loop over it yields, each once. */
  method DictKeys(m: map<string, Json>) returns (keys: seq<Json>)
    ensures |keys| == |m|
    ensures forall i :: 0 <= i < |keys| ==> keys[i].JStr? && keys[i].s in m
    ensures forall i, j :: 0 <= i < j < |keys| ==> keys[i] != keys[j]
  {
    keys := [];
    var rest := m.Keys;
    while rest != {}
      invariant rest <= m.Keys
      invariant |keys| + |rest| == |m.Keys|
      invariant forall i :: 0 <= i < |keys| ==> keys[i].JStr? && keys[i].s in m && keys[i].s !in rest
      invariant forall i, j :: 0 <= i < j < |keys| ==> keys[i] != keys[j]
      decreases |rest|
    {
      var k :| k in rest;
      keys := keys + [JStr(k)];
      rest := rest - {k};
    }
  }
}
