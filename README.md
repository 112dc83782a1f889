# SpaceTrackGO: normalising provider JSON into SpaceData records

SpaceTrackGO shows recent space-weather events from NASA's DONKI API. There are three
kinds: coronal mass ejections (CME), geomagnetic storms (GST) and solar flares (FLR).
`SpaceData.java` turns the provider's JSON array for one category into an array of
`SpaceData` records. Each record has an id, a category, a date-and-time text, a
description and a link to the report, which may be null. This project models that
conversion in Dafny and proves what it guarantees.

- `getKpIndex` is modelled by `SpaceData.GetKpIndex`. It is a loop that keeps a
  running maximum of the `kpIndex` entries, starting from 0. It is proved against
  the function `SpaceData.KpIndex`.
- `formSpaceData` is modelled by `SpaceData.FormSpaceData`. It allocates an array with
  one slot per provider object. It then runs the loop of the selected category
  (`FillCme`, `FillGst` or `FillFlr`). Each loop fills slot `i` from object `i` with
  the matching loop body (`ReadCme`, `ReadGst` or `ReadFlr`).
  - Every loop and loop body is proved against a pure per-record function
    (`CmeRecord`, `GstRecord`, `FlrRecord`, dispatched by `RecordOf`).
  - The whole batch is proved against `FormAll`, an all-or-nothing map over the input.
- The outcome mapping of `getApiData` is modelled by `SpaceData.GetApiData`. It works
  on an abstract `Fetch`: either an `IOException` that reaches the network handler, or
  the text that `Scanner` delivered, which the JSON parser accepted or rejected.
  - The network handler is reached only by a failure in `openConnection` or
    `getInputStream`, or in closing the stream (SpaceData.java:190-193).
  - `Scanner` swallows a failure while reading the body and ends the text early. The
    truncated text then usually fails to parse, which gives the invalid-data message
    at SpaceData.java:199-203, not the network message. So a failed read is
    `Received(None)` in the model.
  - A Java `null` result is modelled as `NoData(reason)`. The reason records which of
    the two user messages the source selects.
- JSON is a datatype (`Json.Json`). The org.json accessors that the code calls are
  functions that return `None` where the library throws `JSONException`. The app is
  an Android app, so these accessors follow Android's bundled org.json:
  - `getString` converts any value except an array or an object, JSON null included: a
    number to its decimal text, a boolean to `true`/`false`, JSON null to `"null"`;
  - `getInt` accepts an int, a long (through `intValue()`, which wraps to 32 bits) and
    a numeric string (through `(int) Double.parseDouble`, which saturates);
  - `getJSONObject` and `getJSONArray` accept only an object or only an array.
- Java's `Integer.toString` is modelled by `Decimal.IntToText`. The code uses it when
  it concatenates the maximum Kp-index into the storm description. It is proved
  inverse to the numeric-string reading used by `getInt`.
- `java.net.URL` is a parameter, `validUrl: string -> bool`. It says whether
  `new URL(link)` succeeds. A successful URL is kept as its link text. A
  `MalformedURLException` becomes `None`, the null hyperlink.

Where the documentation and the code disagree, the model follows the code:
- The doc comment of `getKpIndex` says it throws on an empty array. The code returns 0
  (`KpIndexIsMaximum`, last clause).
- Nothing in `SpaceData.java` reverses the records into most-recent-first order. Nothing
  keeps an earlier result when a refresh fails, and nothing discards stale responses
  by category. The model has none of these either.
- A missing `link` field is not a null link. `getString("link")` throws, and the whole
  batch fails (`MissingFieldFailsBatch`). Only a link that is present but that the
  URL constructor rejects becomes null.

## Model

| member | source | states |
|---|---|---|
| `Optional.MapAll` | app/src/main/java/com/SpaceTrackGO/SpaceData.java:93-113 | converting a batch succeeds exactly when every element converts; the result then has one entry per element, and entry i is element i's conversion |
| `Json.GetString` | app/src/main/java/com/SpaceTrackGO/SpaceData.java:103-105 | `getString(key)` succeeds exactly when the key is present and holds a scalar; a JSON string is returned as it is |
| `Json.ToInt` | app/src/main/java/com/SpaceTrackGO/SpaceData.java:79 | the int org.json coerces to is always in the 32-bit range; it exists exactly for numbers and numeric strings; an int is returned unchanged |
| `Json.GetInt` | app/src/main/java/com/SpaceTrackGO/SpaceData.java:79 | `getInt("kpIndex")` succeeds exactly when the key is present with an int-coercible value, and yields a 32-bit int |
| `Json.Wrap32` | app/src/main/java/com/SpaceTrackGO/SpaceData.java:79 | a long read as an int keeps its value modulo 2^32, lies in the int range, and is unchanged if it already fits |
| `Json.IntTextCoercesBack` | app/src/main/java/com/SpaceTrackGO/SpaceData.java:79 | `getInt` reads the decimal text of an int back as that int |
| `Decimal.IntTextRoundTrip` | app/src/main/java/com/SpaceTrackGO/SpaceData.java:122-123 | the decimal text of any integer reads back as that integer |
| `Decimal.IntTextInjective` | app/src/main/java/com/SpaceTrackGO/SpaceData.java:122-123 | distinct integers have distinct decimal texts |
| `SpaceData.MaxKp` | app/src/main/java/com/SpaceTrackGO/SpaceData.java:77-82 | the running maximum from 0 is at least 0, at least every value, and is either 0 or one of the values |
| `SpaceData.KpIndexIsMaximum` | app/src/main/java/com/SpaceTrackGO/SpaceData.java:76-83 | getKpIndex succeeds exactly when every entry has a Kp-index; its result is at least 0 and at least every entry's value; it equals an entry if some entry is non-negative, and is 0 if all are negative or there are none |
| `SpaceData.GetKpIndex` | app/src/main/java/com/SpaceTrackGO/SpaceData.java:76-83 | the loop returns the maximum of the specification, fails exactly when some entry lacks a Kp-index, and its result bounds every entry from above and is non-negative |
| `SpaceData.RecordOf` | app/src/main/java/com/SpaceTrackGO/SpaceData.java:99-166 | every converted record carries the requested category |
| `SpaceData.FormAll` | app/src/main/java/com/SpaceTrackGO/SpaceData.java:91-169 | a response converts exactly when each of its objects does; the result then has one record per object, in the same order, with record i built from object i |
| `SpaceData.ReadCme` | app/src/main/java/com/SpaceTrackGO/SpaceData.java:102-112 | one CME loop iteration yields the CME record of the object, or fails where an accessor throws |
| `SpaceData.ReadGst` | app/src/main/java/com/SpaceTrackGO/SpaceData.java:117-143 | one GST loop iteration yields the GST record; getKpIndex is called only when there are measurements |
| `SpaceData.ReadFlr` | app/src/main/java/com/SpaceTrackGO/SpaceData.java:148-163 | one FLR loop iteration yields the FLR record of the object, or fails where an accessor throws |
| `SpaceData.FillCme` | app/src/main/java/com/SpaceTrackGO/SpaceData.java:100-114 | the CME loop fills the array with exactly the converted response, or reports failure exactly when the response cannot be converted |
| `SpaceData.FillGst` | app/src/main/java/com/SpaceTrackGO/SpaceData.java:115-145 | the GST loop fills the array with exactly the converted response, or reports failure exactly when the response cannot be converted |
| `SpaceData.FillFlr` | app/src/main/java/com/SpaceTrackGO/SpaceData.java:146-165 | the FLR loop fills the array with exactly the converted response, or reports failure exactly when the response cannot be converted |
| `SpaceData.FormSpaceData` | app/src/main/java/com/SpaceTrackGO/SpaceData.java:91-169 | returns a new array equal to the converted response, or no array at all when the response cannot be converted |
| `SpaceData.GetApiData` | app/src/main/java/com/SpaceTrackGO/SpaceData.java:182-226 | an IOException from connecting or closing gives no data with the network reason; an unparsable body or an unconvertible response gives no data with the invalid-data reason; otherwise a new array of the converted records |
| `SpaceDataProperties.KpOfAccepts` | app/src/main/java/com/SpaceTrackGO/SpaceData.java:79 | an entry has a Kp-index exactly when it is an object whose kpIndex is int-coercible |
| `SpaceDataProperties.KpIndexAccepts` | app/src/main/java/com/SpaceTrackGO/SpaceData.java:78-81 | getKpIndex succeeds exactly when every entry is such an object |
| `SpaceDataProperties.CmeAcceptedIff` | app/src/main/java/com/SpaceTrackGO/SpaceData.java:102-107 | a CME object converts exactly when it is an object with scalar activityID, startTime, note and link |
| `SpaceDataProperties.GstAcceptedIff` | app/src/main/java/com/SpaceTrackGO/SpaceData.java:117-138 | a GST object converts exactly when it has scalar gstID, startTime and link and an allKpIndex array of entries with an int-coercible kpIndex |
| `SpaceDataProperties.FlrAcceptedIff` | app/src/main/java/com/SpaceTrackGO/SpaceData.java:148-158 | an FLR object converts exactly when it has scalar flrID, beginTime, classType and link |
| `SpaceDataProperties.RecordAcceptedIff` | app/src/main/java/com/SpaceTrackGO/SpaceData.java:99-166 | for every category, an object converts exactly when it is well formed for that category |
| `SpaceDataProperties.BatchAcceptedIff` | app/src/main/java/com/SpaceTrackGO/SpaceData.java:91-169 | a response converts exactly when every object in it is well formed |
| `SpaceDataProperties.MissingFieldFailsBatch` | app/src/main/java/com/SpaceTrackGO/SpaceData.java:102-107 | an element that is not an object, or lacks any required field (id, time, note, allKpIndex, classType or link), fails the whole response |
| `SpaceDataProperties.CmeFieldMapping` | app/src/main/java/com/SpaceTrackGO/SpaceData.java:103-112 | a CME record has id = activityID, dateAndTime = startTime, description = note verbatim, and the link's URL or null |
| `SpaceDataProperties.GstFieldMapping` | app/src/main/java/com/SpaceTrackGO/SpaceData.java:118-143 | a GST record has id = gstID and dateAndTime = startTime; with no measurements it gets the fixed no-measurements text, otherwise the sentence with the maximum Kp-index, and a bad measurement fails it |
| `SpaceDataProperties.FlrFieldMapping` | app/src/main/java/com/SpaceTrackGO/SpaceData.java:149-163 | an FLR record has id = flrID, dateAndTime = beginTime, and a description built from classType |
| `SpaceDataProperties.LinkOnlyDecidesHyperlink` | app/src/main/java/com/SpaceTrackGO/SpaceData.java:106-111 | whether URL construction succeeds never decides whether a record converts; it decides only the hyperlink, which is the link text or null, and leaves the other fields the same |
| `SpaceDataProperties.LinksDoNotFailBatch` | app/src/main/java/com/SpaceTrackGO/SpaceData.java:137-142 | invalid links never make a response fail: later records are still converted |
| `SpaceDataProperties.LinkWithoutProtocolIsNull` | app/src/main/java/com/SpaceTrackGO/SpaceData.java:106-111 | if URL construction needs a protocol, an empty link or one without ':' gives a null hyperlink |
| `SpaceDataProperties.KpOfEntry` | app/src/main/java/com/SpaceTrackGO/SpaceData.java:79 | an entry `{"kpIndex": n}` with n a 32-bit int yields n |
| `SpaceDataProperties.KpIndexExample` | app/src/main/java/com/SpaceTrackGO/SpaceData.java:76-83 | measurements 3, 7 and 5 give a maximum of 7 |
| `SpaceDataProperties.KpDescriptionExample` | app/src/main/java/com/SpaceTrackGO/SpaceData.java:121-128 | the storm description for measurements 3, 7 and 5 is the fixed sentence with "7" |
| `SpaceDataProperties.KpDescriptionReadsBack` | app/src/main/java/com/SpaceTrackGO/SpaceData.java:122-128 | a storm description starts with the fixed prefix, and the number after it reads back as the maximum Kp-index |
| `SpaceDataProperties.KpDescriptionInjective` | app/src/main/java/com/SpaceTrackGO/SpaceData.java:122-128 | different maxima give different storm descriptions |
| `SpaceDataProperties.KpDescriptionIsNotEmptyCase` | app/src/main/java/com/SpaceTrackGO/SpaceData.java:121-135 | a description with a maximum never equals the no-measurements description |
| `SpaceDataProperties.FlareDescriptionReadsBack` | app/src/main/java/com/SpaceTrackGO/SpaceData.java:152-156 | a flare description is the fixed prefix, then classType verbatim, then the fixed explanation, and classType can be cut back out |
| `SpaceDataProperties.FormAllConcat` | app/src/main/java/com/SpaceTrackGO/SpaceData.java:101-113 | a response converts as its two parts do, concatenated in the same order: nothing is reversed, sorted or dropped |

## Left out

- The HTTP request is not modelled: building the URL with `?api_key=DEMO_KEY`,
  opening the connection and reading the body with `Scanner` (SpaceData.java:186-197)
  are network I/O. `GetApiData` starts from their outcome, `Fetch`.
- Parsing JSON text (`new JSONArray(result)`) is a foreign library call. `Fetch`
  carries the parsed array or `None`. An empty or invalid body is `Received(None)`, and
  so is a body that `Scanner` cut short after a read failure and that then fails to
  parse. A prefix that happens to parse is modelled only as the array it parses to.
- The validity test of `java.net.URL` is a foreign call, passed in as `validUrl`. The
  URL object is represented by its link text, so any normalisation that `URL` applies
  to the text is not modelled.
- The toast messages and `printStackTrace` calls are user-interface side effects and are
  not modelled. `NoData(reason)` only records which message is chosen.
- `DataType.Hyperlink` mirrors the endpoint constant of the enum only. No request is
  built from it.
- The `AssertionError` for a malformed base URL cannot happen with the constant
  endpoints of `DataType`. It is not modelled.
- `SpaceDataRepository` is not part of this model: a thread per load, `postValue` and a
  lazily created singleton are concurrency and Android plumbing. Its static call
  `SpaceData.getApiData(dataType)` does not match the instance method that takes a
  context.
- `SpaceDataViewModel`, `MainActivity`, `SpaceDataAdapter` and `EventListActivity` are
  not part of this model. They are Android lifecycle, list binding, date formatting
  and menu code.
- JSON numbers with a fraction or an exponent, and integers outside the 64-bit range,
  are not in the `Json` datatype. Android's tokener reads these as a `Double`.
- `Json.GetString`: when a string field holds an array or an object, the model fails.
  Android's `getString` would return the JSON text of that value. The unordered map
  of the model cannot reproduce the key order of that text.
  The acceptance lemmas (`CmeAcceptedIff`, `GstAcceptedIff`, `FlrAcceptedIff`,
  `RecordAcceptedIff`, `BatchAcceptedIff`) and `WellFormed` state this stricter
  acceptance.
- `Json.ToInt`: only an optional sign and decimal digits are accepted as a numeric
  string. Other forms that `Double.parseDouble` accepts are rejected, where Android
  would produce an int: fractions, exponents, surrounding white space, `NaN`,
  `Infinity`, hexadecimal floating-point, and a float-type suffix (`7d`, `7D`, `7f`,
  `7F`).
- `SpaceData.FormSpaceData`: Java fills its array with references to new `SpaceData`
  objects. The model's array holds record values, in the same slots and order.
