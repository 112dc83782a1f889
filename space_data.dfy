/** The normalisation of provider JSON into SpaceData records: the three event
    categories, the maximum Kp-index of a geomagnetic storm, the per-category
    conversion of one provider object, the conversion of a whole response, and the
    outcome of a query once the network part has produced (or failed to produce) a
    parsed JSON array. */
module SpaceData {
  import opened Optional
  import opened Decimal
  import opened Json

  /** The kinds of space data, each with the API endpoint it is obtained from. The
      endpoint mirrors the enum constant only: the request itself is not modelled. */
  datatype DataType = CME | GST | FLR {
    function Hyperlink(): string {
      match this
      case CME => "https://api.nasa.gov/DONKI/CME"
      case GST => "https://api.nasa.gov/DONKI/GST"
      case FLR => "https://api.nasa.gov/DONKI/FLR"
    }
  }

  /** One normalised event. The report link is kept as the text the URL was built
      from; None stands for the null URL. */
  datatype SpaceData = SpaceData(
    id: string,
    dataType: DataType,
    dateAndTime: string,
    description: string,
    hyperlink: Option<string>)

  // ---------------------------------------------------------------------------
  // Description texts

  const KP_EXPLANATION: string :=
    " The Kp-index measures how much the geomagnetic storm is disturbing the horizontal"
    + " part of the Earth's magnetic field. It ranges from 1, for low solar wind activity,"
    + " to 5, for a geomagnetic storm, to 9, for an intense one."

  const KP_PREFIX: string := "The current highest" + " measured Kp-index is "

  const NO_KP_DESCRIPTION: string :=
    "There are no current measurements" + " of the Kp index available." + KP_EXPLANATION

  const FLARE_PREFIX: string := "Solar flare class: "

  const FLARE_EXPLANATION: string :=
    ". The letter, one of A, B, C, M, or X, represents the solar flare's size class,"
    + " where A is the smallest and X is the largest. This is appended with a number"
    + " from 1 to 10 which more precisely represents its size."

  /** The storm description when at least one Kp measurement is present. */
  function KpDescription(maxKpIndex: int): string {
    KP_PREFIX + IntToText(maxKpIndex) + "." + KP_EXPLANATION
  }

  /** The flare description for a class such as "M5.2". */
  function FlareDescription(classType: string): string {
    FLARE_PREFIX + classType + FLARE_EXPLANATION
  }

  /** The hyperlink built from a link text: java.net.URL either accepts the text or
      throws MalformedURLException, which is caught and turned into a null link.
      validUrl stands for the acceptance test of java.net.URL. */
  function LinkOf(link: string, validUrl: string -> bool): (u: Option<string>)
    ensures u.Some? <==> validUrl(link)
    ensures u.Some? ==> u.value == link
  {
    if validUrl(link) then Some(link) else None
  }

  // ---------------------------------------------------------------------------
  // The maximum Kp-index

  /** allKpIndex.getJSONObject(i).getInt("kpIndex") for one entry. */
  function KpOf(entry: Json): Option<int> {
    var obj :- AsObject(entry);
    GetInt(obj, "kpIndex")
  }

  /** The Kp-index of every entry, or None when some entry has none. */
  function KpIndexes(entries: seq<Json>): Option<seq<int>> {
    MapAll(entries, KpOf)
  }

  function Max(a: int, b: int): int {
    if a >= b then a else b
  }

  /** The running maximum of the values, starting from 0. */
  function MaxKp(values: seq<int>): (m: int)
    ensures m >= 0
    ensures forall i | 0 <= i < |values| :: values[i] <= m
    ensures m == 0 || m in values
  {
    if values == [] then 0 else Max(MaxKp(values[..|values| - 1]), values[|values| - 1])
  }

  /** What getKpIndex returns, or None where it throws. */
  function KpIndex(entries: seq<Json>): Option<int> {
    var values :- KpIndexes(entries);
    Some(MaxKp(values))
  }

  /** getKpIndex's result is at least 0 and at least every entry's Kp-index; it is one
      of them unless every entry is negative or there are none, in which case it is 0. */
  lemma KpIndexIsMaximum(entries: seq<Json>)
    ensures KpIndex(entries).Some? <==> forall i | 0 <= i < |entries| :: KpOf(entries[i]).Some?
    ensures KpIndex(entries).Some? ==>
      var m := KpIndex(entries).value;
      && m >= 0
      && (forall i | 0 <= i < |entries| :: KpOf(entries[i]).value <= m)
      && ((exists i | 0 <= i < |entries| :: KpOf(entries[i]).value >= 0) ==>
            exists i | 0 <= i < |entries| :: KpOf(entries[i]).value == m)
      && ((forall i | 0 <= i < |entries| :: KpOf(entries[i]).value < 0) ==> m == 0)
    ensures entries == [] ==> KpIndex(entries) == Some(0)
  {
    if KpIndex(entries).Some? {
      var values := KpIndexes(entries).value;
      var m := MaxKp(values);
      if exists i | 0 <= i < |entries| :: KpOf(entries[i]).value >= 0 {
        var i :| 0 <= i < |entries| && KpOf(entries[i]).value >= 0;
        assert values[i] >= 0;
        var k :| 0 <= k < |values| && values[k] == m;
        assert KpOf(entries[k]).value == m;
      }
    }
  }

  /** getKpIndex: a loop keeping the largest Kp-index seen so far, starting from 0. */
  method GetKpIndex(allKpIndex: seq<Json>) returns (r: Option<int>)
    ensures r == KpIndex(allKpIndex)
    ensures r.Some? <==> forall i | 0 <= i < |allKpIndex| :: KpOf(allKpIndex[i]).Some?
    ensures r.Some? ==> r.value >= 0 && forall i | 0 <= i < |allKpIndex| :: KpOf(allKpIndex[i]).value <= r.value
  {
    var maxKpIndex := 0;
    for i := 0 to |allKpIndex|
      invariant KpIndex(allKpIndex[..i]) == Some(maxKpIndex)
    {
      var currentKpIndex :- KpOf(allKpIndex[i]);
      assert allKpIndex[..i + 1][..i] == allKpIndex[..i];
      maxKpIndex := Max(maxKpIndex, currentKpIndex);
    }
    assert allKpIndex[..|allKpIndex|] == allKpIndex;
    r := Some(maxKpIndex);
    KpIndexIsMaximum(allKpIndex);
  }

  // ---------------------------------------------------------------------------
  // One provider object to one record

  /** The GST description: the maximum Kp-index if measurements are present (only
      then is getKpIndex called), the "no measurements" text otherwise. */
  function GstDescription(allKpIndex: seq<Json>): Option<string> {
    if |allKpIndex| > 0 then
      var maxKpIndex :- KpIndex(allKpIndex);
      Some(KpDescription(maxKpIndex))
    else
      Some(NO_KP_DESCRIPTION)
  }

  function CmeRecord(item: Json, validUrl: string -> bool): Option<SpaceData> {
    var dataObject :- AsObject(item);
    var id :- GetString(dataObject, "activityID");
    var dateAndTime :- GetString(dataObject, "startTime");
    var description :- GetString(dataObject, "note");
    var link :- GetString(dataObject, "link");
    Some(SpaceData(id, CME, dateAndTime, description, LinkOf(link, validUrl)))
  }

  function GstRecord(item: Json, validUrl: string -> bool): Option<SpaceData> {
    var dataObject :- AsObject(item);
    var id :- GetString(dataObject, "gstID");
    var dateAndTime :- GetString(dataObject, "startTime");
    var allKpIndex :- GetJsonArray(dataObject, "allKpIndex");
    var description :- GstDescription(allKpIndex);
    var link :- GetString(dataObject, "link");
    Some(SpaceData(id, GST, dateAndTime, description, LinkOf(link, validUrl)))
  }

  function FlrRecord(item: Json, validUrl: string -> bool): Option<SpaceData> {
    var dataObject :- AsObject(item);
    var id :- GetString(dataObject, "flrID");
    var dateAndTime :- GetString(dataObject, "beginTime");
    var classType :- GetString(dataObject, "classType");
    var link :- GetString(dataObject, "link");
    Some(SpaceData(id, FLR, dateAndTime, FlareDescription(classType), LinkOf(link, validUrl)))
  }

  /** The record formSpaceData builds from one provider object, or None where one of
      the org.json accessors throws. */
  function RecordOf(selection: DataType, item: Json, validUrl: string -> bool): (r: Option<SpaceData>)
    ensures r.Some? ==> r.value.dataType == selection
  {
    match selection
    case CME => CmeRecord(item, validUrl)
    case GST => GstRecord(item, validUrl)
    case FLR => FlrRecord(item, validUrl)
  }

  /** What formSpaceData returns for a whole response, or None where it throws. */
  function FormAll(selection: DataType, jsonData: seq<Json>, validUrl: string -> bool): (r: Option<seq<SpaceData>>)
    ensures r.Some? <==> forall i | 0 <= i < |jsonData| :: RecordOf(selection, jsonData[i], validUrl).Some?
    ensures r.Some? ==> |r.value| == |jsonData|
    ensures r.Some? ==> forall i | 0 <= i < |jsonData| :: r.value[i] == RecordOf(selection, jsonData[i], validUrl).value
  {
    MapAll(jsonData, item => RecordOf(selection, item, validUrl))
  }

  // ---------------------------------------------------------------------------
  // The conversion of a whole response

  /** Converting one more object extends the converted prefix by that object's record. */
  lemma FormAllExtend(selection: DataType, jsonData: seq<Json>, i: nat, validUrl: string -> bool)
    requires i < |jsonData|
    requires FormAll(selection, jsonData[..i], validUrl).Some?
    requires RecordOf(selection, jsonData[i], validUrl).Some?
    ensures FormAll(selection, jsonData[..i + 1], validUrl)
         == Some(FormAll(selection, jsonData[..i], validUrl).value + [RecordOf(selection, jsonData[i], validUrl).value])
  {
    assert jsonData[..i + 1][..i] == jsonData[..i];
  }

  /** One object that cannot be converted makes the whole conversion fail. */
  lemma FormAllFails(selection: DataType, jsonData: seq<Json>, i: nat, validUrl: string -> bool)
    requires i < |jsonData|
    requires RecordOf(selection, jsonData[i], validUrl).None?
    ensures FormAll(selection, jsonData, validUrl).None?
  {
  }

  // The loop bodies below repeat CmeRecord, GstRecord and FlrRecord statement by
  // statement; they are separate methods so that each loop's proof stays small.

  /** The body of formSpaceData's CME loop for one provider object. */
  method ReadCme(item: Json, validUrl: string -> bool) returns (r: Option<SpaceData>)
    ensures r == CmeRecord(item, validUrl)
  {
    var dataObject :- AsObject(item);
    var id :- GetString(dataObject, "activityID");
    var dateAndTime :- GetString(dataObject, "startTime");
    var description :- GetString(dataObject, "note");
    var link :- GetString(dataObject, "link");
    var hyperlink := LinkOf(link, validUrl);
    r := Some(SpaceData(id, CME, dateAndTime, description, hyperlink));
  }

  /** The body of formSpaceData's GST loop for one provider object; getKpIndex is
      called only when there is at least one measurement. */
  method ReadGst(item: Json, validUrl: string -> bool) returns (r: Option<SpaceData>)
    ensures r == GstRecord(item, validUrl)
  {
    var dataObject :- AsObject(item);
    var id :- GetString(dataObject, "gstID");
    var dateAndTime :- GetString(dataObject, "startTime");
    var allKpIndex :- GetJsonArray(dataObject, "allKpIndex");
    var description;
    if |allKpIndex| > 0 {
      var maxKpIndex :- GetKpIndex(allKpIndex);
      description := KpDescription(maxKpIndex);
    } else {
      description := NO_KP_DESCRIPTION;
    }
    var link :- GetString(dataObject, "link");
    var hyperlink := LinkOf(link, validUrl);
    r := Some(SpaceData(id, GST, dateAndTime, description, hyperlink));
  }

  /** The body of formSpaceData's FLR loop for one provider object. */
  method ReadFlr(item: Json, validUrl: string -> bool) returns (r: Option<SpaceData>)
    ensures r == FlrRecord(item, validUrl)
  {
    var dataObject :- AsObject(item);
    var id :- GetString(dataObject, "flrID");
    var dateAndTime :- GetString(dataObject, "beginTime");
    var classType :- GetString(dataObject, "classType");
    var description := FlareDescription(classType);
    var link :- GetString(dataObject, "link");
    var hyperlink := LinkOf(link, validUrl);
    r := Some(SpaceData(id, FLR, dateAndTime, description, hyperlink));
  }

  /** formSpaceData's CME loop: fills slot i of spaceData from object i, and stops
      at the first object that cannot be converted. */
  method FillCme(spaceData: array<SpaceData>, jsonData: seq<Json>, validUrl: string -> bool) returns (ok: bool)
    requires spaceData.Length == |jsonData|
    modifies spaceData
    ensures ok <==> FormAll(CME, jsonData, validUrl).Some?
    ensures ok ==> spaceData[..] == FormAll(CME, jsonData, validUrl).value
  {
    for i := 0 to |jsonData|
      invariant FormAll(CME, jsonData[..i], validUrl) == Some(spaceData[..i])
    {
      var record := ReadCme(jsonData[i], validUrl);
      if record.None? {
        FormAllFails(CME, jsonData, i, validUrl);
        return false;
      }
      spaceData[i] := record.value;
      FormAllExtend(CME, jsonData, i, validUrl);
      assert spaceData[..i + 1] == spaceData[..i] + [record.value];
    }
    assert jsonData[..|jsonData|] == jsonData;
    assert spaceData[..] == spaceData[..spaceData.Length];
    return true;
  }

  /** formSpaceData's GST loop: fills slot i of spaceData from object i, and stops
      at the first object that cannot be converted. */
  method FillGst(spaceData: array<SpaceData>, jsonData: seq<Json>, validUrl: string -> bool) returns (ok: bool)
    requires spaceData.Length == |jsonData|
    modifies spaceData
    ensures ok <==> FormAll(GST, jsonData, validUrl).Some?
    ensures ok ==> spaceData[..] == FormAll(GST, jsonData, validUrl).value
  {
    for i := 0 to |jsonData|
      invariant FormAll(GST, jsonData[..i], validUrl) == Some(spaceData[..i])
    {
      var record := ReadGst(jsonData[i], validUrl);
      if record.None? {
        FormAllFails(GST, jsonData, i, validUrl);
        return false;
      }
      spaceData[i] := record.value;
      FormAllExtend(GST, jsonData, i, validUrl);
      assert spaceData[..i + 1] == spaceData[..i] + [record.value];
    }
    assert jsonData[..|jsonData|] == jsonData;
    assert spaceData[..] == spaceData[..spaceData.Length];
    return true;
  }

  /** formSpaceData's FLR loop: fills slot i of spaceData from object i, and stops
      at the first object that cannot be converted. */
  method FillFlr(spaceData: array<SpaceData>, jsonData: seq<Json>, validUrl: string -> bool) returns (ok: bool)
    requires spaceData.Length == |jsonData|
    modifies spaceData
    ensures ok <==> FormAll(FLR, jsonData, validUrl).Some?
    ensures ok ==> spaceData[..] == FormAll(FLR, jsonData, validUrl).value
  {
    for i := 0 to |jsonData|
      invariant FormAll(FLR, jsonData[..i], validUrl) == Some(spaceData[..i])
    {
      var record := ReadFlr(jsonData[i], validUrl);
      if record.None? {
        FormAllFails(FLR, jsonData, i, validUrl);
        return false;
      }
      spaceData[i] := record.value;
      FormAllExtend(FLR, jsonData, i, validUrl);
      assert spaceData[..i + 1] == spaceData[..i] + [record.value];
    }
    assert jsonData[..|jsonData|] == jsonData;
    assert spaceData[..] == spaceData[..spaceData.Length];
    return true;
  }

  /** formSpaceData: allocates one slot per provider object and runs the loop of the
      selected category; an object that cannot be converted abandons the array. */
  method FormSpaceData(selection: DataType, jsonData: seq<Json>, validUrl: string -> bool)
    returns (r: Option<array<SpaceData>>)
    ensures r.Some? <==> FormAll(selection, jsonData, validUrl).Some?
    ensures r.Some? ==> fresh(r.value) && r.value[..] == FormAll(selection, jsonData, validUrl).value
  {
    var spaceData := new SpaceData[|jsonData|];
    var ok;
    match selection {
      case CME => ok := FillCme(spaceData, jsonData, validUrl);
      case GST => ok := FillGst(spaceData, jsonData, validUrl);
      case FLR => ok := FillFlr(spaceData, jsonData, validUrl);
    }
    if !ok {
      return None;
    }
    return Some(spaceData);
  }

  // ---------------------------------------------------------------------------
  // The query outcome

  /** What the network part of getApiData produced: an IOException that reaches the
      network handler (from openConnection, getInputStream or closing the stream), or
      the text Scanner delivered, which new JSONArray(text) either parsed (Some) or
      rejected as invalid or empty (None). Scanner swallows a read failure and ends the
      text early, so a failure while reading the body is Received(None), or Received
      with whatever the truncated text parses to. */
  datatype Fetch = ConnectionFailed | Received(body: Option<seq<Json>>)

  /** Why no data was returned; each reason has its own message to the user. */
  datatype Failure = NetworkError | MalformedData

  /** The records, or the null result together with its reason. */
  datatype ApiResult = Delivered(data: array<SpaceData>) | NoData(reason: Failure)

  /** getApiData after the HTTP exchange: an I/O failure, an unparsable body and a
      conversion failure each give no data; otherwise the converted records. */
  method GetApiData(selection: DataType, fetch: Fetch, validUrl: string -> bool) returns (r: ApiResult)
    ensures fetch.ConnectionFailed? ==> r == NoData(NetworkError)
    ensures fetch == Received(None) ==> r == NoData(MalformedData)
    ensures fetch.Received? && fetch.body.Some? ==>
      var records := FormAll(selection, fetch.body.value, validUrl);
      if records.None? then r == NoData(MalformedData)
      else r.Delivered? && fresh(r.data) && r.data[..] == records.value
  {
    match fetch {
      case ConnectionFailed =>
        return NoData(NetworkError);
      case Received(None) =>
        return NoData(MalformedData);
      case Received(Some(data)) =>
        var spaceData := FormSpaceData(selection, data, validUrl);
        if spaceData.None? {
          return NoData(MalformedData);
        }
        return Delivered(spaceData.value);
    }
  }
}
