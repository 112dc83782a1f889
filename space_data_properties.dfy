/** What the conversion of provider JSON into SpaceData records guarantees: which
    inputs are accepted, how fields map per category, what the descriptions say,
    how links degrade, and that a batch is all-or-nothing and keeps its order. */
module SpaceDataProperties {
  import opened Optional
  import opened Decimal
  import opened Json
  import opened SpaceData

  // ---------------------------------------------------------------------------
  // Which provider objects are accepted

  /** The fields each category reads with getString. */
  function StringFields(selection: DataType): set<string> {
    match selection
    case CME => {"activityID", "startTime", "note", "link"}
    case GST => {"gstID", "startTime", "link"}
    case FLR => {"flrID", "beginTime", "classType", "link"}
  }

  /** Every field a category requires, the Kp measurements of a storm included. */
  function RequiredFields(selection: DataType): set<string> {
    if selection == GST then StringFields(selection) + {"allKpIndex"} else StringFields(selection)
  }

  /** A value org.json's getInt accepts. */
  predicate IntCoercible(v: Json) {
    v.JInt? || (v.JStr? && ParseInt(v.s).Some?)
  }

  /** An entry of allKpIndex that getKpIndex accepts. */
  predicate KpEntryOk(entry: Json) {
    entry.JObj? && "kpIndex" in entry.fields && IntCoercible(entry.fields["kpIndex"])
  }

  /** An independent description of the provider objects formSpaceData accepts:
      an object whose string fields are present and scalar, and, for a storm, whose
      allKpIndex is an array of entries with an int-coercible kpIndex. This is the
      model's acceptance: a string field holding an array or an object is rejected,
      as Json.GetString is (Android's getString would return its JSON text). */
  predicate WellFormed(selection: DataType, item: Json) {
    item.JObj?
    && (forall key | key in StringFields(selection) :: key in item.fields && item.fields[key].IsScalar())
    && (selection == GST ==>
          "allKpIndex" in item.fields && item.fields["allKpIndex"].JArr?
          && forall i | 0 <= i < |item.fields["allKpIndex"].items| :: KpEntryOk(item.fields["allKpIndex"].items[i]))
  }

  /** An allKpIndex entry has a Kp-index exactly when it is an object whose kpIndex
      is int-coercible. */
  lemma KpOfAccepts(entry: Json)
    ensures KpOf(entry).Some? <==> KpEntryOk(entry)
  {
  }

  /** getKpIndex succeeds exactly when every entry has a Kp-index. */
  lemma KpIndexAccepts(entries: seq<Json>)
    ensures KpIndex(entries).Some? <==> forall i | 0 <= i < |entries| :: KpEntryOk(entries[i])
  {
    forall i | 0 <= i < |entries| {
      KpOfAccepts(entries[i]);
    }
  }

  /** A CME object converts exactly when it is well formed (the model's acceptance,
      see WellFormed). */
  lemma CmeAcceptedIff(item: Json, validUrl: string -> bool)
    ensures CmeRecord(item, validUrl).Some? <==> WellFormed(CME, item)
  {
    if item.JObj? && WellFormed(CME, item) {
      assert "activityID" in StringFields(CME) && "startTime" in StringFields(CME);
      assert "note" in StringFields(CME) && "link" in StringFields(CME);
    }
  }

  /** A GST object converts exactly when it is well formed (the model's acceptance,
      see WellFormed). */
  lemma GstAcceptedIff(item: Json, validUrl: string -> bool)
    ensures GstRecord(item, validUrl).Some? <==> WellFormed(GST, item)
  {
    if item.JObj? {
      var f := item.fields;
      if WellFormed(GST, item) {
        assert "gstID" in StringFields(GST) && "startTime" in StringFields(GST) && "link" in StringFields(GST);
      }
      if "allKpIndex" in f && f["allKpIndex"].JArr? {
        KpIndexAccepts(f["allKpIndex"].items);
      }
    }
  }

  /** A FLR object converts exactly when it is well formed (the model's acceptance,
      see WellFormed). */
  lemma FlrAcceptedIff(item: Json, validUrl: string -> bool)
    ensures FlrRecord(item, validUrl).Some? <==> WellFormed(FLR, item)
  {
    if item.JObj? && WellFormed(FLR, item) {
      assert "flrID" in StringFields(FLR) && "beginTime" in StringFields(FLR);
      assert "classType" in StringFields(FLR) && "link" in StringFields(FLR);
    }
  }

  /** A provider object is converted exactly when it is well formed (the model's
      acceptance, see WellFormed). */
  lemma RecordAcceptedIff(selection: DataType, item: Json, validUrl: string -> bool)
    ensures RecordOf(selection, item, validUrl).Some? <==> WellFormed(selection, item)
  {
    match selection
    case CME => CmeAcceptedIff(item, validUrl);
    case GST => GstAcceptedIff(item, validUrl);
    case FLR => FlrAcceptedIff(item, validUrl);
  }

  /** A whole response is converted exactly when every object in it is well formed. */
  lemma BatchAcceptedIff(selection: DataType, jsonData: seq<Json>, validUrl: string -> bool)
    ensures FormAll(selection, jsonData, validUrl).Some? <==> forall i | 0 <= i < |jsonData| :: WellFormed(selection, jsonData[i])
  {
    forall i | 0 <= i < |jsonData| {
      RecordAcceptedIff(selection, jsonData[i], validUrl);
    }
  }

  /** One element that is not an object, or lacks a required field, fails the whole
      batch: no partial result is returned. */
  lemma MissingFieldFailsBatch(selection: DataType, jsonData: seq<Json>, k: nat, key: string, validUrl: string -> bool)
    requires k < |jsonData|
    requires key in RequiredFields(selection)
    requires !jsonData[k].JObj? || key !in jsonData[k].fields
    ensures FormAll(selection, jsonData, validUrl).None?
  {
    RecordAcceptedIff(selection, jsonData[k], validUrl);
    FormAllFails(selection, jsonData, k, validUrl);
  }

  // ---------------------------------------------------------------------------
  // Field mapping per category

  /** A CME record takes its id from activityID, its time from startTime and its
      description verbatim from note. */
  lemma CmeFieldMapping(fields: map<string, Json>, id: string, startTime: string, note: string, link: string, validUrl: string -> bool)
    requires "activityID" in fields && fields["activityID"] == JStr(id)
    requires "startTime" in fields && fields["startTime"] == JStr(startTime)
    requires "note" in fields && fields["note"] == JStr(note)
    requires "link" in fields && fields["link"] == JStr(link)
    ensures RecordOf(CME, JObj(fields), validUrl)
         == Some(SpaceData(id, CME, startTime, note, if validUrl(link) then Some(link) else None))
  {
  }

  /** A GST record takes its id from gstID and its time from startTime; its
      description reports the largest Kp-index, or that there are no measurements. */
  lemma GstFieldMapping(fields: map<string, Json>, id: string, startTime: string, allKpIndex: seq<Json>, link: string, validUrl: string -> bool)
    requires "gstID" in fields && fields["gstID"] == JStr(id)
    requires "startTime" in fields && fields["startTime"] == JStr(startTime)
    requires "allKpIndex" in fields && fields["allKpIndex"] == JArr(allKpIndex)
    requires "link" in fields && fields["link"] == JStr(link)
    ensures allKpIndex == [] ==>
      RecordOf(GST, JObj(fields), validUrl)
        == Some(SpaceData(id, GST, startTime, NO_KP_DESCRIPTION, if validUrl(link) then Some(link) else None))
    ensures allKpIndex != [] && KpIndex(allKpIndex).Some? ==>
      RecordOf(GST, JObj(fields), validUrl)
        == Some(SpaceData(id, GST, startTime, KpDescription(KpIndex(allKpIndex).value), if validUrl(link) then Some(link) else None))
    ensures allKpIndex != [] && KpIndex(allKpIndex).None? ==> RecordOf(GST, JObj(fields), validUrl).None?
  {
  }

  /** An FLR record takes its id from flrID and its time from beginTime; its
      description embeds classType. */
  lemma FlrFieldMapping(fields: map<string, Json>, id: string, beginTime: string, classType: string, link: string, validUrl: string -> bool)
    requires "flrID" in fields && fields["flrID"] == JStr(id)
    requires "beginTime" in fields && fields["beginTime"] == JStr(beginTime)
    requires "classType" in fields && fields["classType"] == JStr(classType)
    requires "link" in fields && fields["link"] == JStr(link)
    ensures RecordOf(FLR, JObj(fields), validUrl)
         == Some(SpaceData(id, FLR, beginTime, FlareDescription(classType), if validUrl(link) then Some(link) else None))
  {
  }

  // ---------------------------------------------------------------------------
  // Links

  /** URL validity never decides whether a record, or a batch, is converted; it only
      decides the hyperlink: the link text when java.net.URL accepts it, null when not. */
  lemma LinkOnlyDecidesHyperlink(selection: DataType, item: Json, validUrl: string -> bool, otherUrl: string -> bool)
    ensures RecordOf(selection, item, validUrl).Some? == RecordOf(selection, item, otherUrl).Some?
    ensures RecordOf(selection, item, validUrl).Some? ==>
      var link := GetString(item.fields, "link").value;
      && RecordOf(selection, item, validUrl).value.hyperlink == (if validUrl(link) then Some(link) else None)
      && RecordOf(selection, item, validUrl).value.(hyperlink := None) == RecordOf(selection, item, otherUrl).value.(hyperlink := None)
  {
  }

  lemma LinksDoNotFailBatch(selection: DataType, jsonData: seq<Json>, validUrl: string -> bool, otherUrl: string -> bool)
    ensures FormAll(selection, jsonData, validUrl).Some? == FormAll(selection, jsonData, otherUrl).Some?
  {
    forall i | 0 <= i < |jsonData| {
      LinkOnlyDecidesHyperlink(selection, jsonData[i], validUrl, otherUrl);
    }
  }

  /** java.net.URL needs a protocol, which ends at a ':'. */
  ghost predicate NeedsProtocol(validUrl: string -> bool) {
    forall s :: validUrl(s) ==> ':' in s
  }

  /** An empty link, or any link without a protocol, gives a null hyperlink. */
  lemma LinkWithoutProtocolIsNull(selection: DataType, item: Json, validUrl: string -> bool)
    requires NeedsProtocol(validUrl)
    requires RecordOf(selection, item, validUrl).Some?
    requires ':' !in GetString(item.fields, "link").value
    ensures RecordOf(selection, item, validUrl).value.hyperlink.None?
  {
    LinkOnlyDecidesHyperlink(selection, item, validUrl, validUrl);
  }

  // ---------------------------------------------------------------------------
  // The maximum Kp-index

  function KpEntry(kpIndex: Int64): Json {
    JObj(map["kpIndex" := JInt(kpIndex)])
  }

  lemma KpOfEntry(kpIndex: Int64)
    requires IsInt32(kpIndex as int)
    ensures KpOf(KpEntry(kpIndex)) == Some(kpIndex as int)
  {
    assert "kpIndex" in KpEntry(kpIndex).fields;
  }

  /** Measurements 3, 7 and 5 give 7. */
  lemma KpIndexExample()
    ensures KpIndex([KpEntry(3), KpEntry(7), KpEntry(5)]) == Some(7)
  {
    var entries := [KpEntry(3), KpEntry(7), KpEntry(5)];
    KpOfEntry(3);
    KpOfEntry(7);
    KpOfEntry(5);
    assert KpOf(entries[0]) == Some(3) && KpOf(entries[1]) == Some(7) && KpOf(entries[2]) == Some(5);
    var values := KpIndexes(entries).value;
    assert values == [3, 7, 5] by {
      assert |values| == 3 && values[0] == 3 && values[1] == 7 && values[2] == 5;
    }
    assert MaxKp(values) == 7 by {
      assert MaxKp(values) >= values[1];
      assert MaxKp(values) in values;
    }
  }

  /** The storm description for measurements 3, 7 and 5 reports 7. */
  lemma KpDescriptionExample()
    ensures GstDescription([KpEntry(3), KpEntry(7), KpEntry(5)])
         == Some(KP_PREFIX + "7." + KP_EXPLANATION)
  {
    KpIndexExample();
    assert IntToText(7) == "7";
    assert KpDescription(7) == KP_PREFIX + "7." + KP_EXPLANATION;
  }

  // ---------------------------------------------------------------------------
  // Descriptions can be read back

  /** Any text framed by a prefix and a suffix can be cut back out. */
  lemma Framed(prefix: string, middle: string, suffix: string)
    ensures var d := prefix + middle + suffix;
      |d| == |prefix| + |middle| + |suffix|
      && d[..|prefix|] == prefix
      && d[|prefix|..|d| - |suffix|] == middle
      && d[|d| - |suffix|..] == suffix
  {
  }

  /** The maximum Kp-index can be read back from a storm description. */
  lemma KpDescriptionReadsBack(maxKpIndex: int)
    ensures var d := KpDescription(maxKpIndex);
      |d| >= |KP_PREFIX| + 1 + |KP_EXPLANATION|
      && d[..|KP_PREFIX|] == KP_PREFIX
      && ParseInt(d[|KP_PREFIX|..|d| - 1 - |KP_EXPLANATION|]) == Some(maxKpIndex)
  {
    var t := IntToText(maxKpIndex);
    var suffix := "." + KP_EXPLANATION;
    assert KpDescription(maxKpIndex) == KP_PREFIX + t + suffix;
    Framed(KP_PREFIX, t, suffix);
    IntTextRoundTrip(maxKpIndex);
  }

  /** Different maxima give different storm descriptions. */
  lemma KpDescriptionInjective(a: int, b: int)
    requires KpDescription(a) == KpDescription(b)
    ensures a == b
  {
    KpDescriptionReadsBack(a);
    KpDescriptionReadsBack(b);
  }

  /** The no-measurements text starts with "There", whose fourth letter is 'r'. */
  lemma NoKpDescriptionStartsThere()
    ensures |NO_KP_DESCRIPTION| > 3 && NO_KP_DESCRIPTION[3] == 'r'
  {
    var noKp := "There are no current measurements";
    assert noKp[3] == 'r';
    assert NO_KP_DESCRIPTION == noKp + (" of the Kp index available." + KP_EXPLANATION);
  }

  /** A storm description starts with "The ", whose fourth letter is a space. */
  lemma KpDescriptionStartsThe(maxKpIndex: int)
    ensures |KpDescription(maxKpIndex)| > 3 && KpDescription(maxKpIndex)[3] == ' '
  {
    var head := "The current highest";
    var rest := " measured Kp-index is " + IntToText(maxKpIndex) + "." + KP_EXPLANATION;
    assert head[3] == ' ';
    assert KpDescription(maxKpIndex) == head + rest;
  }

  /** No storm description with a maximum reads as the "no measurements" text. */
  lemma KpDescriptionIsNotEmptyCase(maxKpIndex: int)
    ensures KpDescription(maxKpIndex) != NO_KP_DESCRIPTION
  {
    NoKpDescriptionStartsThere();
    KpDescriptionStartsThe(maxKpIndex);
  }

  /** The flare class can be read back from a flare description. */
  lemma FlareDescriptionReadsBack(classType: string)
    ensures var d := FlareDescription(classType);
      |d| == |FLARE_PREFIX| + |classType| + |FLARE_EXPLANATION|
      && d[..|FLARE_PREFIX|] == FLARE_PREFIX
      && d[|FLARE_PREFIX|..|d| - |FLARE_EXPLANATION|] == classType
      && d[|d| - |FLARE_EXPLANATION|..] == FLARE_EXPLANATION
  {
    Framed(FLARE_PREFIX, classType, FLARE_EXPLANATION);
  }

  // ---------------------------------------------------------------------------
  // Order

  /** A batch converts as its parts do, in the same order: nothing is reversed,
      sorted or dropped. */
  lemma FormAllConcat(selection: DataType, xs: seq<Json>, ys: seq<Json>, validUrl: string -> bool)
    ensures FormAll(selection, xs + ys, validUrl).Some?
        <==> FormAll(selection, xs, validUrl).Some? && FormAll(selection, ys, validUrl).Some?
    ensures FormAll(selection, xs + ys, validUrl).Some? ==>
      FormAll(selection, xs + ys, validUrl).value == FormAll(selection, xs, validUrl).value + FormAll(selection, ys, validUrl).value
  {
    MapAllAppend(xs, ys, item => RecordOf(selection, item, validUrl));
  }
}
