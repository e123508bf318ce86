/** JSON values as the program sees them after `JSON.parse`, JavaScript
    truthiness over them, and the backup envelope written by `exportData`
    and unwrapped by `importDataFromText` (main.js:361-446, the later of the
    two declarations of each). */
module JsonModel {
  import opened Wrappers

  /** A parsed JSON value. Numbers are modelled as integers. */
  datatype Json =
    | JNull
    | JBool(b: bool)
    | JNumber(n: int)
    | JString(s: string)
    | JArray(items: seq<Json>)
    | JObject(fields: map<string, Json>)

  /** JavaScript truthiness: `null`, `false`, `0` and `""` are falsy; every
      array and object, even an empty one, is truthy. */
  predicate Truthy(j: Json) {
    match j
    case JNull => false
    case JBool(b) => b
    case JNumber(n) => n != 0
    case JString(s) => s != []
    case JArray(_) => true
    case JObject(_) => true
  }

  /** `typeof j === "object"` for a truthy value: objects and arrays. */
  predicate IsObject(j: Json) {
    j.JArray? || j.JObject?
  }

  /** `j[key]`, with `undefined` as None. Arrays carry no named fields. */
  function Field(j: Json, key: string): (r: Option<Json>)
    ensures r.Some? <==> j.JObject? && key in j.fields
    ensures r.Some? ==> r.value == j.fields[key]
  {
    if j.JObject? && key in j.fields then Some(j.fields[key]) else None
  }

  /** `!!j[key]` */
  predicate FieldTruthy(j: Json, key: string) {
    var f := Field(j, key);
    f.Some? && Truthy(f.value)
  }

  // --- export (main.js:361-401) -----------------------------------------

  /** The `data` of an export: the stored settings, or `{}` when nothing is
      stored or the stored text does not parse. */
  function ExportedData(stored: Option<Json>): (d: Json)
    ensures stored.None? ==> d == JObject(map[])
    ensures stored.Some? ==> d == stored.value
  {
    match stored
    case None => JObject(map[])
    case Some(j) => j
  }

  /** `{version: 1, exportedAt, data}` */
  function ExportPayload(data: Json, exportedAt: string): (p: Json)
    ensures p.JObject? && Field(p, "data") == Some(data)
    ensures FieldTruthy(p, "version")
  {
    JObject(map["version" := JNumber(1), "exportedAt" := JString(exportedAt), "data" := data])
  }

  // --- import (main.js:403-446) -----------------------------------------

  /** The configuration an imported payload stands for: the `data` of an
      envelope whose `version` and `data` are both truthy, otherwise the
      payload itself when it is an object, otherwise nothing. */
  function Unwrap(payload: Json): (cfg: Option<Json>)
    ensures cfg.Some? && FieldTruthy(payload, "version") && FieldTruthy(payload, "data")
            ==> cfg.value == payload.fields["data"]
    ensures cfg.Some? && !(FieldTruthy(payload, "version") && FieldTruthy(payload, "data"))
            ==> cfg.value == payload
    ensures cfg.None? <==> !IsObject(payload)
  {
    if Truthy(payload) && IsObject(payload) && FieldTruthy(payload, "version") && FieldTruthy(payload, "data")
    then Some(payload.fields["data"])
    else if Truthy(payload) && IsObject(payload) then Some(payload)
    else None
  }

  /** `!cfg.sessions && !cfg.moments && !cfg.diary`: the file has none of the
      user's own data, and the user is asked a second time. */
  predicate LacksUserData(cfg: Json) {
    !FieldTruthy(cfg, "sessions") && !FieldTruthy(cfg, "moments") && !FieldTruthy(cfg, "diary")
  }

  datatype ImportOutcome =
    | NotJson        // "选中的文件不是有效的 JSON 格式。"
    | BadShape       // "文件内容格式不符合预期，无法导入。"
    | Declined       // one of the confirmations was refused
    | Imported(cfg: Json)  // `cfg` is written to storage and the page reloads

  /** `importDataFromText`: `parsed` is `JSON.parse(text)` (None when it
      throws); `goOn` and `ok` are the answers to the two confirmations. */
  function ImportData(parsed: Option<Json>, goOn: bool, ok: bool): (r: ImportOutcome)
    ensures r == NotJson <==> parsed.None?
    ensures r.Imported? ==> parsed.Some? && Unwrap(parsed.value) == Some(r.cfg)
    ensures r.Imported? ==> IsObject(r.cfg) && ok && (LacksUserData(r.cfg) ==> goOn)
    ensures r == BadShape <==> parsed.Some? && (Unwrap(parsed.value).None? || !IsObject(Unwrap(parsed.value).value))
  {
    match parsed
    case None => NotJson
    case Some(payload) =>
      match Unwrap(payload)
      case None => BadShape
      case Some(cfg) =>
        if !Truthy(cfg) || !IsObject(cfg) then BadShape
        else if LacksUserData(cfg) && !goOn then Declined
        else if !ok then Declined
        else Imported(cfg)
  }

  /** An export of stored settings imports back to exactly those settings,
      whatever is stored, as long as it is an object (as the program always
      stores). */
  lemma ExportImportRoundTrip(stored: Option<Json>, exportedAt: string)
    requires stored.Some? ==> stored.value.JObject?
    ensures ImportData(Some(ExportPayload(ExportedData(stored), exportedAt)), true, true)
            == Imported(ExportedData(stored))
  {
    var d := ExportedData(stored);
    var p := ExportPayload(d, exportedAt);
    assert FieldTruthy(p, "data");
    assert Unwrap(p) == Some(d);
  }

  /** A bare settings object, without an envelope, is imported as it is. */
  lemma BareSettingsImportAsIs(cfg: map<string, Json>)
    requires "version" !in cfg
    ensures ImportData(Some(JObject(cfg)), true, true) == Imported(JObject(cfg))
  {
    assert !FieldTruthy(JObject(cfg), "version");
  }

  /** Envelope detection is by shape: an envelope whose stored data is
      `null` is not unwrapped, and the envelope itself becomes the imported
      settings. */
  lemma NullExportImportsEnvelope(exportedAt: string)
    ensures ImportData(Some(ExportPayload(JNull, exportedAt)), true, true)
            == Imported(ExportPayload(JNull, exportedAt))
  {
    var p := ExportPayload(JNull, exportedAt);
    assert !FieldTruthy(p, "data");
  }
}
