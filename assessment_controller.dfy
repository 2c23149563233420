/** backend/src/controllers/assessmentController.js: saving an assessment,
    and reading the latest one back enriched with the prediction service's
    numbers. MongoDB and the HTTP call to the prediction service are not
    modelled: their outcomes are parameters, and what would be stored or
    sent is returned. A stored document is seen through `toObject()`, as a
    map from property name to JSON value. */
module AssessmentController {
  import opened Js
  import opened AssessmentRecord

  /** The document `new Assessment({ user: req.user.id, name, ... })`
      describes: the user id plus each of the twelve fields the body
      defines, unchanged (an `undefined` field is not set). */
  function SaveProjection(userId: Json, body: Json): (doc: map<string, Json>)
    ensures "user" in doc && doc["user"] == userId
    ensures forall k :: k in doc && k != "user" ==> k in FieldKeys && Prop(body, k) == Some(doc[k])
    ensures forall k :: k in FieldKeys && Prop(body, k).Some? ==> k in doc
  {
    map k | k in {"user"} + FieldKeys && (k == "user" || Prop(body, k).Some?) ::
      if k == "user" then userId else Prop(body, k).value
  }

  /** What `newAssessment.save()` does: resolves with the generated
      properties (`_id`, timestamps, version), or rejects. */
  datatype SaveOutcome = Stored(generated: map<string, Json>) | SaveRejected

  /** `saveAssessment`: 201 with the saved document, or 500. `record` is the
      document handed to the database. */
  method SaveAssessment(userId: Json, body: Json, outcome: SaveOutcome)
    returns (response: Response, record: Option<map<string, Json>>)
    ensures body == JNull ==> record.None?
    ensures body != JNull ==> record == Some(SaveProjection(userId, body))
    ensures record.Some? && outcome.Stored? ==>
      response == Response(201, JObj(record.value + outcome.generated))
    ensures record.None? || outcome.SaveRejected? ==>
      response == Response(500, Message("message", "Failed to save assessment."))
  {
    if body == JNull {
      // destructuring `null` throws
      return Response(500, Message("message", "Failed to save assessment.")), None;
    }
    var doc := SaveProjection(userId, body);
    record := Some(doc);
    match outcome {
      case SaveRejected =>
        response := Response(500, Message("message", "Failed to save assessment."));
      case Stored(generated) =>
        response := Response(201, JObj(doc + generated));
    }
  }

  /** `Assessment.findOne({ user }).sort({ createdAt: -1 })`: the latest
      document, none, or a database error. */
  datatype Lookup = Found(doc: map<string, Json>) | NoneFound | LookupFailed

  /** What the prediction service does with the request: no response at
      all, or a status, its body text, and that text parsed as JSON when it
      is JSON. */
  datatype PredictionReply = Unreachable | Answered(status: int, text: string, json: Option<Json>)

  /** The POST the controller makes: URL and JSON payload. */
  datatype PredictionCall = PredictionCall(url: string, payload: map<string, Json>)

  /** `${mlServiceUrl}/predict`: plain concatenation, no slash handling. */
  function PredictUrl(base: string): (url: string)
    ensures StartsWith(url, base) && EndsWith(url, "/predict")
    ensures |url| == |base| + |"/predict"|
  {
    var url := base + "/predict";
    assert url[..|base|] == base;
    assert url[|url| - 8..] == "/predict";
    url
  }

  /** A base that ends in "/" gives a URL with "//predict". */
  lemma TrailingSlashDoubles(base: string)
    requires EndsWith(base, "/")
    ensures EndsWith(PredictUrl(base), "//predict")
  {
    var url := PredictUrl(base);
    assert url == base + "/predict";
    assert url[|url| - 9..] == [base[|base| - 1]] + "/predict";
  }

  /** One renamed entry of the payload; `JSON.stringify` drops `undefined`. */
  function Renamed(doc: map<string, Json>, from: string, to: string): map<string, Json>
  {
    if from in doc then map[to := doc[from]] else map[]
  }

  /** The request body: `roofArea`, `roofType`, `soilType` and `rainfall` of
      the record under their snake-case names, omitting the undefined ones. */
  function Payload(doc: map<string, Json>): (p: map<string, Json>)
    ensures p.Keys <= {"roof_area", "roof_type", "soil_type", "annual_rainfall"}
    ensures ("roof_area" in p <==> "roofArea" in doc) && ("roof_area" in p ==> p["roof_area"] == doc["roofArea"])
    ensures ("roof_type" in p <==> "roofType" in doc) && ("roof_type" in p ==> p["roof_type"] == doc["roofType"])
    ensures ("soil_type" in p <==> "soilType" in doc) && ("soil_type" in p ==> p["soil_type"] == doc["soilType"])
    ensures ("annual_rainfall" in p <==> "rainfall" in doc) && ("annual_rainfall" in p ==> p["annual_rainfall"] == doc["rainfall"])
  {
    Renamed(doc, "roofArea", "roof_area") + Renamed(doc, "roofType", "roof_type")
    + Renamed(doc, "soilType", "soil_type") + Renamed(doc, "rainfall", "annual_rainfall")
  }

  /** `x || 0`. */
  function OrZero(v: Value): (r: Json)
    ensures Truthy(v) ==> r == v.value
    ensures !Truthy(v) ==> r == JNum(0)
  {
    if Truthy(v) then v.value else JNum(0)
  }

  const PredictionKeys: set<string> := {"potentialHarvest", "tankVolume", "efficiency", "inertia"}

  /** `{ ...latest.toObject(), potentialHarvest: ml.potential_harvest || 0, ... }`. */
  function Merge(doc: map<string, Json>, ml: Json): (r: map<string, Json>)
    ensures r.Keys == doc.Keys + PredictionKeys
    ensures forall k :: k in doc && k !in PredictionKeys ==> r[k] == doc[k]
    ensures r["potentialHarvest"] == OrZero(Prop(ml, "potential_harvest"))
    ensures r["tankVolume"] == OrZero(Prop(ml, "tank_volume"))
    ensures r["efficiency"] == OrZero(Prop(ml, "efficiency"))
    ensures r["inertia"] == OrZero(Prop(ml, "inertia"))
  {
    doc + map[
      "potentialHarvest" := OrZero(Prop(ml, "potential_harvest")),
      "tankVolume" := OrZero(Prop(ml, "tank_volume")),
      "efficiency" := OrZero(Prop(ml, "efficiency")),
      "inertia" := OrZero(Prop(ml, "inertia"))]
  }

  function InternalError(): Response
  {
    Response(500, Message("message", "An internal server error occurred."))
  }

  /** `getLatestAssessment`: 404 without a record, 500 without a configured
      service URL (both before any call), 502 with the service's text on a
      non-OK status, the merged record on success, and 500 for anything
      that throws (database error, network failure, a body that is not JSON,
      a `null` JSON body). `serviceUrl` is `ML_SERVICE_URL`, "" when unset. */
  method GetLatestAssessment(lookup: Lookup, serviceUrl: string, reply: PredictionReply)
    returns (response: Response, call: Option<PredictionCall>)
    ensures lookup.LookupFailed? ==> response == InternalError() && call.None?
    ensures lookup.NoneFound? ==>
      response == Response(404, Message("message", "No assessment found for this user.")) && call.None?
    ensures lookup.Found? && serviceUrl == "" ==>
      response == Response(500, Message("message", "ML service is not configured on the server.")) && call.None?
    ensures call.Some? <==> lookup.Found? && serviceUrl != ""
    ensures call.Some? ==> call.value == PredictionCall(PredictUrl(serviceUrl), Payload(lookup.doc))
    ensures call.Some? && reply.Unreachable? ==> response == InternalError()
    ensures call.Some? && reply.Answered? && !IsOkStatus(reply.status) ==>
      response == Response(502, JObj(map["message" := JStr("Error from prediction service."), "details" := JStr(reply.text)]))
    ensures call.Some? && reply.Answered? && IsOkStatus(reply.status) && reply.json !in {None, Some(JNull)} ==>
      response == Response(200, JObj(Merge(lookup.doc, reply.json.value)))
    ensures call.Some? && reply.Answered? && IsOkStatus(reply.status) && reply.json in {None, Some(JNull)} ==>
      response == InternalError()
  {
    match lookup {
      case LookupFailed => return InternalError(), None;
      case NoneFound =>
        return Response(404, Message("message", "No assessment found for this user.")), None;
      case Found(latest) =>
        if serviceUrl == "" {
          return Response(500, Message("message", "ML service is not configured on the server.")), None;
        }
        call := Some(PredictionCall(PredictUrl(serviceUrl), Payload(latest)));
        match reply {
          case Unreachable => response := InternalError();
          case Answered(status, text, json) =>
            if !IsOkStatus(status) {
              response := Response(502, JObj(map["message" := JStr("Error from prediction service."), "details" := JStr(text)]));
            } else if json.None? || json.value == JNull {
              response := InternalError();
            } else {
              response := Response(200, JObj(Merge(latest, json.value)));
            }
        }
    }
  }

  /** A service answer carrying only `potential_harvest: 1200` enriches the
      record with 1200, 0, 0, 0. */
  lemma PartialPredictionDefaultsToZero(doc: map<string, Json>)
    ensures var r := Merge(doc, JObj(map["potential_harvest" := JNum(1200)]));
      r["potentialHarvest"] == JNum(1200) && r["tankVolume"] == JNum(0)
      && r["efficiency"] == JNum(0) && r["inertia"] == JNum(0)
  {
  }

  /** The body the wizard submits is stored as the user id plus exactly its
      twelve fields, each the string the user typed. */
  lemma WizardSubmissionStored(userId: Json, form: Form)
    ensures SaveProjection(userId, JObj(ToBody(form))) == ToBody(form)["user" := userId]
  {
    SchemaObjectStored(userId, ToBody(form));
  }

  /** A body whose keys are all schema fields is stored whole, next to the
      user id. */
  lemma SchemaObjectStored(userId: Json, fields: map<string, Json>)
    requires fields.Keys <= FieldKeys
    ensures SaveProjection(userId, JObj(fields)) == fields["user" := userId]
  {
    var doc := SaveProjection(userId, JObj(fields));
    var stored := fields["user" := userId];
    assert "user" !in FieldKeys;
    forall k | k in stored ensures k in doc && doc[k] == stored[k] {
      if k != "user" {
        assert Prop(JObj(fields), k) == Some(fields[k]);
      }
    }
    assert doc.Keys == stored.Keys;
  }

  /** One field of a record saved from the wizard. */
  lemma StoredWizardField(userId: Json, form: Form, f: Field)
    ensures var doc := SaveProjection(userId, JObj(ToBody(form)));
      Key(f) in doc && doc[Key(f)] == JStr(Get(form, f))
  {
    WizardSubmissionStored(userId, form);
    KeysAreFieldKeys(f);
  }

  /** The payload of a record that defines all four inputs. */
  lemma PayloadOfCompleteRecord(doc: map<string, Json>)
    requires "roofArea" in doc && "roofType" in doc && "soilType" in doc && "rainfall" in doc
    ensures Payload(doc) == map[
      "roof_area" := doc["roofArea"], "roof_type" := doc["roofType"],
      "soil_type" := doc["soilType"], "annual_rainfall" := doc["rainfall"]]
  {
    var p := Payload(doc);
    assert p.Keys == {"roof_area", "roof_type", "soil_type", "annual_rainfall"};
  }

  /** The prediction request for a record saved from the wizard carries the
      roof area, roof type, soil type and rainfall the user entered. */
  lemma WizardRecordPayload(userId: Json, form: Form)
    ensures Payload(SaveProjection(userId, JObj(ToBody(form)))) == map[
      "roof_area" := JStr(form.roofArea), "roof_type" := JStr(form.roofType),
      "soil_type" := JStr(form.soilType), "annual_rainfall" := JStr(form.rainfall)]
  {
    var doc := SaveProjection(userId, JObj(ToBody(form)));
    StoredWizardField(userId, form, RoofArea);
    StoredWizardField(userId, form, RoofType);
    StoredWizardField(userId, form, SoilType);
    StoredWizardField(userId, form, Rainfall);
    PayloadOfInputs(doc, form);
  }

  lemma PayloadOfInputs(doc: map<string, Json>, form: Form)
    requires Key(RoofArea) in doc && doc[Key(RoofArea)] == JStr(Get(form, RoofArea))
    requires Key(RoofType) in doc && doc[Key(RoofType)] == JStr(Get(form, RoofType))
    requires Key(SoilType) in doc && doc[Key(SoilType)] == JStr(Get(form, SoilType))
    requires Key(Rainfall) in doc && doc[Key(Rainfall)] == JStr(Get(form, Rainfall))
    ensures Payload(doc) == map[
      "roof_area" := JStr(form.roofArea), "roof_type" := JStr(form.roofType),
      "soil_type" := JStr(form.soilType), "annual_rainfall" := JStr(form.rainfall)]
  {
    PayloadOfCompleteRecord(doc);
  }
}
