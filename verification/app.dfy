/**
 * The `/predict` request handler of the Flask application: it assembles the
 * eleven features from the request's JSON object in training order,
 * converts the numeric ones with `float`, calls `predict`, records a
 * successful prediction in the history table and answers with a JSON body
 * and an HTTP status.
 */
module App {
  import opened Wrappers
  import opened ModelUtils

  /** The decoded request body: a JSON object, or `None` when the body is not one. */
  type Json = Option<map<string, Value>>

  /** The request fields, in the order the classifier was trained on. */
  const FeatureNames: seq<string> := [
    "Age", "Sex", "ChestPainType", "RestingBP", "Cholesterol", "FastingBS",
    "RestingECG", "MaxHR", "ExerciseAngina", "Oldpeak", "ST_Slope"
  ]

  /**
   * The list display `[data[n0], data[n1], ...]`, evaluated left to right:
   * the first absent name raises KeyError.
   */
  function Gather(names: seq<string>, data: map<string, Value>): (r: Result<seq<Value>, Exception>)
    ensures r.Success? <==> forall i :: 0 <= i < |names| ==> names[i] in data
    ensures r.Success? ==> |r.value| == |names| && forall i :: 0 <= i < |names| ==> r.value[i] == data[names[i]]
    ensures r.Failure? ==>
      exists i :: (0 <= i < |names| && r.error == MissingField(names[i]) &&
        names[i] !in data && forall j :: 0 <= j < i ==> names[j] in data)
    decreases |names|
  {
    if names == [] then Success([])
    else if names[0] !in data then Failure(MissingField(names[0]))
    else match Gather(names[1..], data)
      case Failure(e) => Failure(e)
      case Success(rest) => Success([data[names[0]]] + rest)
  }

  /** The conversions the handler performs on slots 0, 3, 4, 5, 7 and 9 before calling `predict`. */
  const AppSteps: seq<Step> := [Coerce(0), Coerce(3), Coerce(4), Coerce(5), Coerce(7), Coerce(9)]

  lemma AppStepsDistinct()
    ensures DistinctSlots(AppSteps)
  {
  }

  /** The handler's conversions raise nothing exactly when every numeric slot is present and convertible. */
  lemma AppCoercionSucceedsIff(s: seq<Value>, parse: string -> Option<real>)
    ensures Run(AppSteps, s, parse).error.None? <==>
      forall i :: i in NumericSlots ==> i < |s| && ToFloat(s[i], parse).Some?
  {
    AppStepsDistinct();
    AppStepsCoverNumericSlots();
    CoercionsSucceedIff(AppSteps, s, parse, NumericSlots);
  }

  /** The handler converts the numeric slots, each exactly once, and nothing else. */
  lemma AppStepsCoverNumericSlots()
    ensures DistinctSlots(AppSteps)
    ensures forall j :: 0 <= j < |AppSteps| ==> AppSteps[j].Coerce? && AppSteps[j].slot in NumericSlots
    ensures forall i :: i in NumericSlots ==> exists j :: 0 <= j < |AppSteps| && AppSteps[j] == Coerce(i)
  {
    forall i | i in NumericSlots ensures exists j :: 0 <= j < |AppSteps| && AppSteps[j] == Coerce(i) {
      assert AppSteps[AppIndex(i)] == Coerce(i);
    }
  }

  /** The position of the conversion of numeric slot `i` among the handler's conversions. */
  function AppIndex(i: nat): (j: nat)
    requires i in NumericSlots
    ensures j < |AppSteps| && AppSteps[j] == Coerce(i)
  {
    if i == 0 then 0 else if i == 3 then 1 else if i == 4 then 2
    else if i == 5 then 3 else if i == 7 then 4 else 5
  }

  /**
   * When the handler's conversions raise nothing, the slot `i` of its `j`-th
   * conversion holds `float` of that slot's value.
   */
  lemma AppCoercedNumber(s: seq<Value>, parse: string -> Option<real>, j: nat, i: nat)
    requires Run(AppSteps, s, parse).error.None? && j < |AppSteps| && AppSteps[j] == Coerce(i)
    ensures i < |s| && ToFloat(s[i], parse).Some?
    ensures Run(AppSteps, s, parse).list[i] == Num(ToFloat(s[i], parse).value)
  {
    AppStepsDistinct();
    RunStoredNumber(AppSteps, s, parse, j, i);
  }

  /** Whatever happens, the handler's conversions leave the other slots as they were. */
  lemma AppKeptSlot(s: seq<Value>, parse: string -> Option<real>, i: nat)
    requires i < |s| && i !in NumericSlots
    ensures Run(AppSteps, s, parse).list[i] == s[i]
  {
    assert forall j :: 0 <= j < |AppSteps| ==> AppSteps[j].slot in NumericSlots;
    RunKeepsUnnamedSlot(AppSteps, s, parse, i);
  }

  /**
   * The handler's conversions on the array, one statement after another;
   * the first that raises leaves the earlier slots converted.
   */
  method CoerceNumericSlots(a: array<Value>, parse: string -> Option<real>) returns (err: Option<Exception>)
    modifies a
    ensures Encoding(a[..], err) == Run(AppSteps, old(a[..]), parse)
  {
    ghost var steps := AppSteps;
    assert steps[0..] == steps;
    err := Perform(a, Coerce(0), steps, 0, parse);
    if err.Some? { return; }
    err := Perform(a, Coerce(3), steps, 1, parse);
    if err.Some? { return; }
    err := Perform(a, Coerce(4), steps, 2, parse);
    if err.Some? { return; }
    err := Perform(a, Coerce(5), steps, 3, parse);
    if err.Some? { return; }
    err := Perform(a, Coerce(7), steps, 4, parse);
    if err.Some? { return; }
    err := Perform(a, Coerce(9), steps, 5, parse);
    if err.Some? { return; }
    assert steps[6..] == [];
  }

  /**
   * `predict` converts the numeric slots again; on a list the handler has
   * already converted this changes nothing: the encoding raises the same
   * exception as on the unconverted list and, when it raises nothing,
   * produces the same features.
   */
  lemma SecondCoercionChangesNothing(s: seq<Value>, parse: string -> Option<real>)
    requires Run(AppSteps, s, parse).error.None?
    ensures var t := Run(AppSteps, s, parse).list;
      Run(FeatureSteps, t, parse).error == Run(FeatureSteps, s, parse).error &&
      (Run(FeatureSteps, s, parse).error.None? ==> Run(FeatureSteps, t, parse).list == Run(FeatureSteps, s, parse).list)
  {
    var t := Run(AppSteps, s, parse).list;
    FeatureStepsDistinct();
    FeatureStepsShape();
    forall j | 0 <= j < |FeatureSteps|
      ensures StepResult(FeatureSteps[j], s, parse) == StepResult(FeatureSteps[j], t, parse)
    {
      var st := FeatureSteps[j];
      if st.slot < |s| {
        if st.Coerce? {
          assert FeatureSteps[5..] == AppSteps;
          assert AppSteps[j - 5] == Coerce(st.slot);
          AppCoercedNumber(s, parse, j - 5, st.slot);
        } else {
          AppKeptSlot(s, parse, st.slot);
        }
      }
    }
    forall i | 0 <= i < |s| && i !in Slots(FeatureSteps) ensures s[i] == t[i] {
      if i in NumericSlots {
        SlotInSlots(FeatureSteps, CoerceIndex(i));
      } else {
        AppKeptSlot(s, parse, i);
      }
    }
    RunsAgree(FeatureSteps, s, t, parse);
  }

  const RiskMessage := "Riesgo de enfermedad cardíaca"
  const NoRiskMessage := "Sin riesgo significativo"

  /** The `message` of a successful response. */
  function Message(prediction: int): (m: string)
    ensures m == RiskMessage <==> prediction == 1
    ensures m == NoRiskMessage <==> prediction != 1
  {
    if prediction == 1 then RiskMessage else NoRiskMessage
  }

  /**
   * The JSON body: `{"success": true, "prediction", "probability", "message"}`
   * or `{"success": false, "error"}`.
   */
  datatype Body = Prediction(prediction: int, probability: Option<real>, message: string) | Error(error: string)

  datatype Response = Response(status: int, body: Body)

  /** The answer of the `except Exception` clause: status 500 with `str(e)`. */
  function Failed(e: Exception): Response
  {
    Response(500, Error(Describe(e)))
  }

  /** A row of the history table: the request's raw fields in order, and the result pair. */
  datatype Entry = Entry(features: seq<Value>, prediction: int, probability: Option<real>)

  /** The globals after one request, the response, and the history row written, if any. */
  datatype RouteRun = RouteRun(state: Artifacts, response: Response, saved: Option<Entry>)

  /** What the handler does with the outcome of `predict` on the request's fields `raw`. */
  function Answer(p: PredictRun, raw: seq<Value>): RouteRun
  {
    match p.out
    case Raised(e) => RouteRun(p.state, Failed(e), None)
    case Returned(Unlabelled(reason)) => RouteRun(p.state, Response(400, Error(reason.Text())), None)
    case Returned(Labelled(prediction, probability)) =>
      RouteRun(p.state, Response(200, Prediction(prediction, probability, Message(prediction))),
        Some(Entry(raw, prediction, probability)))
  }

  /** The handler once the eleven fields `raw` are read: the conversions, `predict` and the answer. */
  function FieldsSpec(st: Artifacts, disk: Disk, raw: seq<Value>, parse: string -> Option<real>): RouteRun
  {
    var c := Run(AppSteps, raw, parse);
    if c.error.Some? then RouteRun(st, Failed(c.error.value), None)
    else Answer(PredictSpec(st, disk, c.list, parse), raw)
  }

  function RouteSpec(st: Artifacts, disk: Disk, json: Json, parse: string -> Option<real>): RouteRun
  {
    if json.None? then RouteRun(st, Failed(NotAnObject), None)
    else
      var raw := Gather(FeatureNames, json.value);
      if raw.Failure? then RouteRun(st, Failed(raw.error), None)
      else FieldsSpec(st, disk, raw.value, parse)
  }

  /** The three answers after `predict`: 500 when it raises, 400 without a label, 200 with one. */
  lemma AnswerStatuses(p: PredictRun, raw: seq<Value>)
    ensures var r := Answer(p, raw);
      r.state == p.state &&
      (r.response.status == 500 <==> p.out.Raised?) &&
      (r.response.status == 400 <==> p.out.Returned? && p.out.value.Unlabelled?) &&
      (r.response.status == 200 <==> p.out.Returned? && p.out.value.Labelled?) &&
      (r.saved.Some? <==> r.response.status == 200) &&
      (r.response.body.Prediction? <==> r.response.status == 200) &&
      (p.out.Raised? ==> r.response.body == Error(Describe(p.out.error))) &&
      (p.out.Returned? && p.out.value.Unlabelled? ==> r.response.body == Error(p.out.value.reason.Text())) &&
      (r.saved.Some? ==>
        (r.saved.value == Entry(raw, r.response.body.prediction, r.response.body.probability) &&
         r.response.body.message == Message(r.response.body.prediction)))
  {
  }

  /**
   * Every request is answered 200, 400 or 500; a history row is written
   * exactly on a 200, which is exactly when the body carries a prediction,
   * and the row holds the prediction and probability of that body.
   */
  lemma RouteStatuses(st: Artifacts, disk: Disk, json: Json, parse: string -> Option<real>)
    ensures var r := RouteSpec(st, disk, json, parse);
      (r.response.status == 200 || r.response.status == 400 || r.response.status == 500) &&
      (r.saved.Some? <==> r.response.status == 200) &&
      (r.response.body.Prediction? <==> r.response.status == 200) &&
      (r.saved.Some? ==>
        (r.saved.value.prediction == r.response.body.prediction &&
         r.saved.value.probability == r.response.body.probability))
  {
    if json.Some? {
      var raw := Gather(FeatureNames, json.value);
      if raw.Success? {
        var c := Run(AppSteps, raw.value, parse);
        if c.error.None? {
          var p := PredictSpec(st, disk, c.list, parse);
          assert RouteSpec(st, disk, json, parse) == Answer(p, raw.value);
          AnswerStatuses(p, raw.value);
        }
      }
    }
  }

  /**
   * A request lacking a field is answered 500 naming the first missing field
   * in training order; neither the globals nor the history change.
   */
  lemma MissingFieldAnswers500(st: Artifacts, disk: Disk, data: map<string, Value>, parse: string -> Option<real>, i: nat)
    requires i < |FeatureNames| && FeatureNames[i] !in data
    requires forall j :: 0 <= j < i ==> FeatureNames[j] in data
    ensures RouteSpec(st, disk, Some(data), parse) ==
      RouteRun(st, Response(500, Error("'" + FeatureNames[i] + "'")), None)
  {
    var raw := Gather(FeatureNames, data);
    var k :| 0 <= k < |FeatureNames| && raw.error == MissingField(FeatureNames[k]) &&
      FeatureNames[k] !in data && forall j :: 0 <= j < k ==> FeatureNames[j] in data;
    assert k == i;
  }

  /**
   * A request with every field but a numeric field that `float` rejects is
   * answered 500 before `predict` runs; neither the globals nor the history
   * change.
   */
  lemma NonNumericAnswers500(st: Artifacts, disk: Disk, data: map<string, Value>, parse: string -> Option<real>, i: nat)
    requires forall k :: 0 <= k < |FeatureNames| ==> FeatureNames[k] in data
    requires i in NumericSlots && i < |FeatureNames| && ToFloat(data[FeatureNames[i]], parse).None?
    ensures var r := RouteSpec(st, disk, Some(data), parse);
      r.state == st && r.response.status == 500 && r.response.body.Error? && r.saved.None?
  {
    var raw := Gather(FeatureNames, data).value;
    assert raw[i] == data[FeatureNames[i]];
    AppCoercionSucceedsIff(raw, parse);
    RouteOfObject(st, disk, data, parse);
  }

  /**
   * A JSON object holding every feature name, whose numeric fields convert,
   * gathers into the eleven raw values and passes the handler's coercions.
   */
  lemma WellFormedRequest(data: map<string, Value>, parse: string -> Option<real>)
    requires forall i :: 0 <= i < |FeatureNames| ==> FeatureNames[i] in data
    requires forall i :: i in NumericSlots ==> i < |FeatureNames| && ToFloat(data[FeatureNames[i]], parse).Some?
    ensures var raw := Gather(FeatureNames, data);
      raw.Success? && |raw.value| == 11 && Run(AppSteps, raw.value, parse).error.None? &&
      forall i :: 0 <= i < 11 ==> raw.value[i] == data[FeatureNames[i]]
  {
    var raw := Gather(FeatureNames, data).value;
    forall i | i in NumericSlots
      ensures i < |raw| && ToFloat(raw[i], parse).Some?
    {
      assert raw[i] == data[FeatureNames[i]];
    }
    AppCoercionSucceedsIff(raw, parse);
  }

  /** Two objects that agree on the presence and value of each name give the same list display. */
  lemma {:induction false} GatherAgrees(names: seq<string>, d1: map<string, Value>, d2: map<string, Value>)
    requires forall k :: 0 <= k < |names| ==>
      (names[k] in d1 <==> names[k] in d2) && (names[k] in d1 ==> d1[names[k]] == d2[names[k]])
    ensures Gather(names, d1) == Gather(names, d2)
    decreases |names|
  {
    if names != [] {
      forall k | 0 <= k < |names| - 1
        ensures (names[1..][k] in d1 <==> names[1..][k] in d2) &&
          (names[1..][k] in d1 ==> d1[names[1..][k]] == d2[names[1..][k]])
      {
        assert names[1..][k] == names[k + 1];
      }
      GatherAgrees(names[1..], d1, d2);
    }
  }

  /**
   * The answer, the globals afterwards and the history row depend on the
   * request object only through the eleven feature names: other keys are
   * ignored.
   */
  lemma RouteDependsOnlyOnFeatures(st: Artifacts, disk: Disk, d1: map<string, Value>, d2: map<string, Value>, parse: string -> Option<real>)
    requires forall k :: 0 <= k < |FeatureNames| ==>
      (FeatureNames[k] in d1 <==> FeatureNames[k] in d2) &&
      (FeatureNames[k] in d1 ==> d1[FeatureNames[k]] == d2[FeatureNames[k]])
    ensures RouteSpec(st, disk, Some(d1), parse) == RouteSpec(st, disk, Some(d2), parse)
  {
    GatherAgrees(FeatureNames, d1, d2);
  }

  /** Once every field is gathered, the route is `FieldsSpec` of the raw values. */
  lemma RouteOfObject(st: Artifacts, disk: Disk, data: map<string, Value>, parse: string -> Option<real>)
    requires Gather(FeatureNames, data).Success?
    ensures RouteSpec(st, disk, Some(data), parse) == FieldsSpec(st, disk, Gather(FeatureNames, data).value, parse)
  {
  }

  /**
   * With no model held and no model file, a well-formed request is answered
   * 500 with the loader's FileNotFoundError text rather than the
   * "Modelo no cargado." pair; nothing changes.
   */
  lemma NoModelFileAnswers500(st: Artifacts, disk: Disk, data: map<string, Value>, parse: string -> Option<real>)
    requires st.model.None? && disk.modelFile.None?
    requires forall i :: 0 <= i < |FeatureNames| ==> FeatureNames[i] in data
    requires forall i :: i in NumericSlots ==> i < |FeatureNames| && ToFloat(data[FeatureNames[i]], parse).Some?
    ensures RouteSpec(st, disk, Some(data), parse) ==
      RouteRun(st, Response(500, Error("Modelo no encontrado en " + ModelPath)), None)
  {
    WellFormedRequest(data, parse);
    RouteOfObject(st, disk, data, parse);
    NoModelFileFields(st, disk, Gather(FeatureNames, data).value, parse);
  }

  lemma NoModelFileFields(st: Artifacts, disk: Disk, raw: seq<Value>, parse: string -> Option<real>)
    requires st.model.None? && disk.modelFile.None? && Run(AppSteps, raw, parse).error.None?
    ensures FieldsSpec(st, disk, raw, parse) ==
      RouteRun(st, Response(500, Error("Modelo no encontrado en " + ModelPath)), None)
  {
    assert Failed(ModelFileNotFound) == Response(500, Error("Modelo no encontrado en " + ModelPath));
    var c := Run(AppSteps, raw, parse);
    var p := PredictSpec(st, disk, c.list, parse);
    PredictRaisesOnlyWithoutModelFile(st, disk, c.list, parse);
    assert p.out == Raised(ModelFileNotFound) && p.state == st;
  }

  /**
   * With a model available and the numeric fields convertible, a label
   * outside its table is answered 400 with the `predict` error text, and no
   * history row is written.
   */
  lemma UnknownLabelAnswers400(st: Artifacts, disk: Disk, data: map<string, Value>, parse: string -> Option<real>, f: Field)
    requires st.model.Some? || disk.modelFile.Some?
    requires forall i :: 0 <= i < |FeatureNames| ==> FeatureNames[i] in data
    requires forall i :: i in NumericSlots ==> i < |FeatureNames| && ToFloat(data[FeatureNames[i]], parse).Some?
    requires Lookup(f, data[FeatureNames[SlotOf(f)]]).None?
    ensures var r := RouteSpec(st, disk, Some(data), parse);
      r.response.status == 400 && r.saved.None? &&
      r.response.body.Error? && PredictionErrorPrefix <= r.response.body.error
  {
    WellFormedRequest(data, parse);
    RouteOfObject(st, disk, data, parse);
    UnknownLabelFields(st, disk, Gather(FeatureNames, data).value, parse, f);
  }

  lemma UnknownLabelFields(st: Artifacts, disk: Disk, raw: seq<Value>, parse: string -> Option<real>, f: Field)
    requires st.model.Some? || disk.modelFile.Some?
    requires |raw| == 11 && Run(AppSteps, raw, parse).error.None? && Lookup(f, raw[SlotOf(f)]).None?
    ensures var r := FieldsSpec(st, disk, raw, parse);
      r.response.status == 400 && r.saved.None? &&
      r.response.body.Error? && PredictionErrorPrefix <= r.response.body.error
  {
    var c := Run(AppSteps, raw, parse);
    AppKeptSlot(raw, parse, SlotOf(f));
    var p := PredictSpec(st, disk, c.list, parse);
    UnknownLabelGivesErrorPair(st, disk, c.list, parse, f);
    AnswerStatuses(p, raw);
  }

  /**
   * A history row keeps the request's raw fields in training order, not the
   * encoded features: each categorical field is the label itself, one of
   * its table's keys.
   */
  lemma SavedEntryKeepsRawData(st: Artifacts, disk: Disk, json: Json, parse: string -> Option<real>)
    requires Consistent(st)
    ensures var r := RouteSpec(st, disk, json, parse);
      r.saved.Some? ==>
        (json.Some? && Gather(FeatureNames, json.value).Success? &&
         r.saved.value.features == Gather(FeatureNames, json.value).value &&
         |r.saved.value.features| == |FeatureNames| &&
         (forall f :: r.saved.value.features[SlotOf(f)].Str? && r.saved.value.features[SlotOf(f)].s in Table(f)))
  {
    if json.Some? {
      var raw := Gather(FeatureNames, json.value);
      if raw.Success? {
        var c := Run(AppSteps, raw.value, parse);
        if c.error.None? {
          var p := PredictSpec(st, disk, c.list, parse);
          assert RouteSpec(st, disk, json, parse) == Answer(p, raw.value);
          AnswerStatuses(p, raw.value);
          if p.out.Returned? && p.out.value.Labelled? {
            LabelledMeansEncoded(st, disk, c.list, parse);
            forall f ensures raw.value[SlotOf(f)].Str? && raw.value[SlotOf(f)].s in Table(f) {
              AppKeptSlot(raw.value, parse, SlotOf(f));
              assert Lookup(f, c.list[SlotOf(f)]).Some?;
            }
          }
        }
      }
    }
  }

  /**
   * The Flask application around the process-wide predictor; `history` is
   * the `predictions` table.
   */
  class Service {
    const predictor: Predictor
    var history: seq<Entry>

    ghost predicate Valid()
      reads this, predictor
    {
      predictor.Valid()
    }

    constructor (p: Predictor)
      requires p.Valid()
      ensures Valid() && predictor == p && history == []
    {
      predictor := p;
      history := [];
    }

    /** `predict_route`: the answer to one POST on `/predict`. */
    method PredictRoute(json: Json, disk: Disk, parse: string -> Option<real>) returns (resp: Response)
      requires Valid()
      modifies this, predictor
      ensures Valid()
      ensures var r := RouteSpec(old(predictor.State()), disk, json, parse);
        resp == r.response && predictor.State() == r.state &&
        history == old(history) + (if r.saved.Some? then [r.saved.value] else [])
    {
      if json.None? {
        resp := Failed(NotAnObject);
        return;
      }
      var raw := Gather(FeatureNames, json.value);
      if raw.Failure? {
        resp := Failed(raw.error);
        return;
      }
      resp := PredictFields(raw.value, disk, parse);
    }

    /** The rest of `predict_route`, once the fields are read into the list `features`. */
    method PredictFields(features: seq<Value>, disk: Disk, parse: string -> Option<real>) returns (resp: Response)
      requires Valid()
      modifies this, predictor
      ensures Valid()
      ensures var r := FieldsSpec(old(predictor.State()), disk, features, parse);
        resp == r.response && predictor.State() == r.state &&
        history == old(history) + (if r.saved.Some? then [r.saved.value] else [])
    {
      var a := new Value[|features|](i requires 0 <= i < |features| => features[i]);
      assert a[..] == features;
      var err := CoerceNumericSlots(a, parse);
      if err.Some? {
        resp := Failed(err.value);
        return;
      }
      var out := predictor.Predict(a, disk, parse);
      if out.Raised? {
        resp := Failed(out.error);
        return;
      }
      var pair := out.value;
      if pair.Unlabelled? {
        resp := Response(400, Error(pair.reason.Text()));
        return;
      }
      history := history + [Entry(features, pair.prediction, pair.probability)];
      resp := Response(200, Prediction(pair.prediction, pair.probability, Message(pair.prediction)));
    }
  }
}
