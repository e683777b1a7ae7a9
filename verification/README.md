# Heart-failure prediction service: a verified model

This project models the prediction core of a small Flask service that
estimates heart-disease risk from eleven clinical features.

- `model_utils.py` holds the core.
  - Five label-encoding tables, one each for Sex, ChestPainType, RestingECG,
    ExerciseAngina and ST_Slope.
  - A load-once guard over the module globals `_model` and `_scaler`.
  - `predict`. It rewrites the caller's 11-slot feature list in place:
    categorical slots become table codes and numeric slots become `float`s.
    It then scales the row, classifies it and returns a pair: either
    `(label, probability)` or `(None, error text)`.
- `app.py`'s `/predict` handler does the following:
  - builds the feature list from the request's JSON object in training order;
  - converts the numeric slots;
  - calls `predict`;
  - maps the outcome to a JSON body and an HTTP status (200, 400 or 500);
  - appends a history row only on success.

The model has three modules.

- `Wrappers` (`wrappers.dfy`): `Option`, `Result` and `Outcome`. `Outcome`
  is a Python call that returns a value or raises.
- `ModelUtils` (`model_utils.dfy`):
  - **Tables.** The tables are `map`s, and `Lookup` is `TABLE[v]` with no
    default code.
  - **Statements.** A `Step` is one statement of the form
    `list[i] = TABLE[list[i]]` or `list[i] = float(list[i])`.
  - **Run semantics.** `Run` executes statements one after another on the
    same list. An exception stops the run and leaves the earlier writes in
    place.
  - **Closed form.** `RunMatchesClosedForm` proves that this sequential
    semantics equals a closed form computed on the original list.
  - **`Predictor` class.** It holds `_model` and `_scaler` as fields and has
    `Load` and `Predict` methods. `Predict` rewrites an `array` in place, and
    is proved against the specification function `PredictSpec`.
- `App` (`app.dfy`):
  - **`Service` class.** `PredictRoute` models the handler. The `history`
    field stands for the `predictions` table.
  - **Specification functions.** The handler is proved against `RouteSpec`,
    which is layered as `RouteSpec`, then `FieldsSpec`, then `Answer`.

The parts of the source that depend on the outside world are parameters.

- **Classifier and scaler.** The trained classifier and the scaler are
  values of function type. A `None` result stands for the library raising.
- **Files.** A file on disk is an `Option` holding what `joblib.load` would
  return. `None` means the file does not exist.
- **`float()` on strings.** This is an abstract `parse: string -> Option<real>`.
- **Numbers.** Numbers are `real`.

Where the documented behaviour and the code differ, the model follows the code.

- **Missing model file.** A missing model file is documented as producing a
  `(None, "Modelo no cargado.")` pair. In the code, `predict` calls
  `load_model_and_scaler` outside its `try` (model_utils.py:44). The loader
  raises `FileNotFoundError`, which escapes `predict`, and the handler answers
  500 with `"Modelo no encontrado en best_random_forest_model.pkl"`.
- **Dead guard.** In the model the guard `if _model is None`
  (model_utils.py:45-46) never fires: the loader either raises or sets
  `_model`. This rests on the assumption that `joblib.load` neither raises
  nor returns `None` (see "## Left out"). A model file that unpickles to
  `None` would make the source return the "Modelo no cargado." pair.
  `PredictRaisesOnlyWithoutModelFile` proves that the "Modelo no cargado."
  pair is never returned, and `NoModelFileAnswers500` proves the 500
  response.

## Model

| member | source | states |
|---|---|---|
| ModelUtils.LookupMatchesLabels | model_utils.py:13-17 | a value has a code exactly when it is a string among the field's labels, and that code is the label's position; there is no default code |
| ModelUtils.DocumentedCodes | model_utils.py:13-17 | F→0, M→1; ASY→0, ATA→1, NAP→2, TA→3; LVH→0, Normal→1, ST→2; N→0, Y→1; Down→0, Flat→1, Up→2 |
| ModelUtils.LookupInjective | model_utils.py:13-17 | two values of one field with the same code are the same label |
| ModelUtils.Lookup | model_utils.py:64-68 | `TABLE[v]`: the code of a string label in the field's table, otherwise the KeyError (or TypeError) case; its properties are `LookupMatchesLabels` and `DocumentedCodes` |
| ModelUtils.ToFloat | model_utils.py:70-76 | `float(v)`: numbers convert to themselves, booleans to 1.0/0.0, strings through the abstract parse, null and arrays/objects raise |
| ModelUtils.StepResult | model_utils.py:64-76 | what one statement stores (a table code or a float) judged on a list, or what it raises: IndexError for a missing slot, KeyError for an unknown label, ValueError/TypeError for a failed conversion |
| ModelUtils.Run | model_utils.py:64-76 | the statements executed one after another on the same list, an exception stopping the run with the earlier writes kept; the list keeps its length (its meaning is `RunMatchesClosedForm`) |
| ModelUtils.FirstFailure | model_utils.py:64-76 | the index of the first statement that fails on the original list: every earlier one succeeds and the statement at that index fails |
| ModelUtils.RunMatchesClosedForm | model_utils.py:64-76 | running the statements in place equals the closed form: the exception of the first statement that fails on the original list, the values of all earlier statements stored in their slots, every other slot unchanged, same length |
| ModelUtils.RunSucceedsIff | model_utils.py:64-76 | a run with distinct slots raises nothing exactly when every statement succeeds on the original list |
| ModelUtils.CoercionsSucceedIff | model_utils.py:70-76 | a run of `float` conversions covering a set of slots raises nothing exactly when each of those slots exists and converts |
| ModelUtils.RunWrote | model_utils.py:64-76 | a statement before the first failure has stored its value in its slot |
| ModelUtils.RunStored | model_utils.py:64-76 | after a run that raised nothing, every statement has succeeded and stored its value |
| ModelUtils.RunStoredNumber | model_utils.py:70-76 | after a run that raised nothing, a converted slot holds `float` of its original value |
| ModelUtils.RunKept | model_utils.py:64-76 | a slot that no statement before the first failure writes keeps its original value |
| ModelUtils.RunKeepsUnnamedSlot | model_utils.py:64-76 | a slot that no statement names is never changed, whether or not the run raises |
| ModelUtils.RunsAgree | model_utils.py:64-76 | two lists on which every statement gives the same result, and which differ only in written slots, give the same exception and, when none is raised, the same final list |
| ModelUtils.FirstFailureAt | model_utils.py:64-76 | when the statements before k succeed and statement k fails, k is the first failure |
| ModelUtils.FeatureStepsSucceedIff | model_utils.py:64-76 | every statement of `predict` succeeds on the list exactly when the list has 11 slots, each label is in its table and each numeric slot converts |
| ModelUtils.EncodingSucceedsIff | model_utils.py:64-76 | `predict`'s encoding raises nothing exactly when the list is encodable (both directions); the list keeps its length either way |
| ModelUtils.EncodableRunsThrough | model_utils.py:64-76 | on an encodable list no statement of `predict` fails |
| ModelUtils.EncodedLabel | model_utils.py:64-68 | after a successful encoding, slots 1, 2, 6, 8 and 10 hold the table code of their label |
| ModelUtils.EncodedNumber | model_utils.py:70-76 | after a successful encoding, slots 0, 3, 4, 5, 7 and 9 hold `float` of their value |
| ModelUtils.EncodingKeepsExtraSlots | model_utils.py:64-76 | slots beyond the eleventh are never touched by the encoding |
| ModelUtils.LateBadLabelKeepsEarlierCodes | model_utils.py:64-68 | when only ST_Slope's label is unknown, the encoding raises on it, the caller's list already holds the codes of the four earlier labels, and every other slot is unchanged |
| ModelUtils.SlopeIsFirstFailure | model_utils.py:64-68 | with only ST_Slope unknown, the fifth statement is the first to fail, with a KeyError on that label |
| ModelUtils.AsVector | model_utils.py:79 | the list becomes a numeric row exactly when every slot is a number, and the row holds those numbers in order |
| ModelUtils.ElevenEncodedSlotsVectorise | model_utils.py:64-79 | an encodable list of eleven slots always becomes a numeric row after the encoding |
| ModelUtils.Infer | model_utils.py:82-92 | scaling when a scaler is loaded (`if _scaler:`), then classification; a failure in either is caught and yields no label; its property is EncodableListIsClassified |
| ModelUtils.EncodableListIsClassified | model_utils.py:79-92 | with a model available, an encodable 11-slot list leaves the encoded features in the caller's list and they form a numeric row; without a scaler the result is the classification of that row, with one the classification of the row transformed exactly once, and a failing transform gives the error pair |
| ModelUtils.Classify | model_utils.py:86-92 | a label is returned exactly when `predict` succeeds and, if `predict_proba` exists, it succeeds with at least two columns; the label is the classifier's, and the probability is absent exactly when there is no `predict_proba`, otherwise column 1 |
| ModelUtils.LoadOutcome | model_utils.py:19-32 | loading raises FileNotFoundError exactly when no model is held and the model file is absent; it then changes nothing, and otherwise a model is held afterwards |
| ModelUtils.LoadIsIdempotent | model_utils.py:22 | once a model is held, a further load changes neither `_model` nor `_scaler`, whatever is on disk |
| ModelUtils.FirstLoadSetsGlobals | model_utils.py:22-32 | a first load sets `_model` to the file's content, and sets `_scaler` only when its file exists (it stays unset otherwise) |
| ModelUtils.LoadSpec | model_utils.py:19-32 | `load_model_and_scaler`: nothing when a model is held; FileNotFoundError when the model file is absent; otherwise `_model` from the file and `_scaler` from its file when that exists (its properties are `LoadOutcome`, `LoadIsIdempotent`, `FirstLoadSetsGlobals`) |
| ModelUtils.PredictSpec | model_utils.py:34-95 | `predict`: the loader (outside the `try`), then the encoding, the numeric row, scaling and classification, each failure caught into the error pair; the caller's list keeps the writes made before a failure |
| ModelUtils.Describe | model_utils.py:94-95 | `str(e)` for each exception the core raises or catches (fixed texts for library messages) |
| ModelUtils.Reason.Text | model_utils.py:45-95 | the second component of an error pair: "Modelo no cargado." or "Error en la predicción: " followed by `str(e)` |
| ModelUtils.PredictRaisesOnlyWithoutModelFile | model_utils.py:44-48 | `predict` raises exactly when no model is held and the model file is absent, and then leaves the list and globals untouched; it never returns the "Modelo no cargado." pair |
| ModelUtils.UnknownLabelGivesErrorPair | model_utils.py:64-95 | with a model available, an unknown label makes `predict` return `(None, "Error en la predicción: " + str(KeyError))` instead of raising, the KeyError naming the first unknown label in slot order 1, 2, 6, 8, 10 |
| ModelUtils.BadLabelKeepsEarlierCodes | model_utils.py:64-68 | for any unknown label: the encoding raises KeyError on the first unknown label `g` in slot order 1, 2, 6, 8, 10; the caller's list then holds the code of every categorical slot encoded before `g`, and every slot no earlier statement writes keeps its value |
| ModelUtils.FailureAtField | model_utils.py:64-68 | when every label before `g` is known and `g`'s is not, `g`'s statement is the first to fail |
| ModelUtils.EarlierCodesStored | model_utils.py:64-68 | when `g`'s statement is the first to fail, each earlier categorical slot holds its code |
| ModelUtils.UnwrittenSlotsKept | model_utils.py:64-68 | when `g`'s statement is the first to fail, a slot no earlier statement writes is unchanged |
| ModelUtils.FirstUnknownLabel | model_utils.py:64-68 | when some label is unknown, the encoding raises KeyError on the first unknown label in slot order, every earlier label being known |
| ModelUtils.LabelledMeansEncoded | model_utils.py:34-92 | a returned label implies the list was encodable, the caller's list holds the encoded features, and the probability is absent exactly when the model lacks `predict_proba` |
| ModelUtils.Predictor.constructor | model_utils.py:9-10 | both globals start unset |
| ModelUtils.Predictor.Load | model_utils.py:19-32 | the globals and the raised exception are those of the load specification |
| ModelUtils.Predictor.Predict | model_utils.py:34-95 | the globals, the caller's array (rewritten in place) and the outcome are those of `PredictSpec` |
| ModelUtils.ApplyInPlace | model_utils.py:64-76 | one statement on the array either stores its value in its slot or raises and leaves the array unchanged |
| ModelUtils.EncodeInPlace | model_utils.py:64-76 | the eleven statements on the array leave exactly the list and exception of the sequential run |
| App.Gather | app.py:89-93 | the list display succeeds exactly when every name is present; it then holds `data[name]` for each name in order, and otherwise raises KeyError on the first absent name |
| App.AppCoercionSucceedsIff | app.py:95-100 | the handler's six conversions raise nothing exactly when slots 0, 3, 4, 5, 7 and 9 exist and convert |
| App.AppStepsCoverNumericSlots | app.py:95-100 | the handler converts exactly the numeric slots, each once |
| App.AppCoercedNumber | app.py:95-100 | after conversions that raised nothing, each converted slot holds `float` of its value |
| App.AppKeptSlot | app.py:95-100 | the categorical slots reach `predict` as the raw labels |
| App.CoerceNumericSlots | app.py:95-100 | the conversions on the list leave exactly the list and exception of the sequential run |
| App.SecondCoercionChangesNothing | app.py:95-103 | `predict` converting already converted slots again gives the same exception and the same features as on the unconverted list |
| App.Message | app.py:115 | the message is the risk text exactly when the label is 1, and the no-risk text exactly otherwise |
| App.AnswerStatuses | app.py:103-119 | after `predict`: 500 exactly when it raised, with `str(e)` as the error; 400 exactly for a `None` label, with `predict`'s second component as the error; 200 exactly for a label; a row is saved exactly on 200, holding the raw fields and the body's prediction and probability; the message matches the label; the globals are those after `predict` |
| App.Answer | app.py:103-119 | the handler after `predict`: `str(e)` with 500 when it raised, the error text with 400 for a `None` label, and the success body with 200 plus a history row of the raw fields for a label |
| App.FieldsSpec | app.py:95-119 | the handler once the fields are read: the six conversions (a failure answers 500), then `predict` and `Answer` |
| App.RouteSpec | app.py:79-119 | `predict_route`: a body that is not an object answers 500, a missing field answers 500 with its KeyError, otherwise `FieldsSpec` |
| App.RouteStatuses | app.py:79-119 | every request is answered 200, 400 or 500; a row is saved exactly on 200, which is exactly when the body carries a prediction, and the row matches that body |
| App.MissingFieldAnswers500 | app.py:89-119 | a request lacking a field is answered 500 with `str(KeyError)` of the first missing name in training order; nothing is saved and the globals are unchanged |
| App.NonNumericAnswers500 | app.py:95-119 | a numeric field that does not convert is answered 500; nothing is saved and the globals are unchanged |
| App.WellFormedRequest | app.py:89-100 | a request holding every field, whose numeric fields convert, gives an 11-slot list in training order on which the conversions raise nothing |
| App.GatherAgrees | app.py:89-93 | two objects that agree on the presence and value of each name give the same list display, or the same KeyError |
| App.RouteDependsOnlyOnFeatures | app.py:79-119 | two request objects that agree on the presence and value of the eleven feature names get the same response, globals and history row: other keys are ignored |
| App.NoModelFileAnswers500 | app.py:103-119 | with no model held and no model file, a well-formed request is answered 500 with "Modelo no encontrado en best_random_forest_model.pkl", and nothing changes |
| App.NoModelFileFields | app.py:103-119 | the same, starting from the 11 raw values |
| App.UnknownLabelAnswers400 | app.py:103-106 | with a model available, a well-formed request with an unknown label is answered 400 with the "Error en la predicción: " text, and nothing is saved |
| App.UnknownLabelFields | app.py:103-106 | the same, starting from the 11 raw values |
| App.SavedEntryKeepsRawData | app.py:109 | a saved row holds the request's raw fields in training order, so each categorical field is a table label and not its code |
| App.Service.constructor | app.py:7-10 | an empty history over the given predictor |
| App.Service.PredictRoute | app.py:79-119 | the response, the globals after the request, and the history (the old history plus the saved row, if any) are those of `RouteSpec` |
| App.Service.PredictFields | app.py:95-116 | the same, once the eleven fields are read into `feature_order` |

## Left out

- Flask routing, `jsonify`, `render_template` and the other routes (`/`, `/history`, `/clear_history`) are left out. The response is a plain `Response` value, and the `success` flag is implied by the body variant.
- `request.get_json()` is not modelled. A body that is not a JSON object is the abstract `None` request, answered 500. The exact Flask or `TypeError` text is replaced by a fixed string.
- SQLite is left out: `init_db`, `get_prediction_history`, the timestamp, and a failing `INSERT` (which would also give a 500). History is an append-only `seq` of rows.
- `joblib.load` and `os.path.exists` are left out. Each file is an `Option` on a `Disk` value.
- The internals of the classifier and the scaler are left out. They are opaque functions that may fail.
- Python's `float()` parsing of strings is left out. It is the `parse` parameter.
- The difference between Python `int` and `float` JSON numbers is left out; both are `Num(real)`.
- `int(prediction)` is left out. The classifier returns an `int` directly.
- `numpy.array(...).reshape(1, -1)` is modelled only as "every slot is a number".
- ModelUtils.Describe: library exception messages (ValueError, TypeError, numpy, scikit-learn) are stood in for by fixed texts. The model keeps the prefix "Error en la predicción: " and the FileNotFoundError text exactly.
- ModelUtils.Describe: `str(KeyError(k))` is `repr(k)`. Describe wraps a string key in single quotes and renders `True`, `False` and `None` as Python does. It differs from Python for a string key that contains a quote (Python then uses double quotes) or a backslash (Python escapes it). A number key gets the fixed text "a number key", because `Num` holds a real and the `int`/`float` spelling of `repr` is lost. A list or dict value gets the fixed text "unhashable type"; Python raises TypeError "unhashable type: 'list'" or "'dict'" there.
- ModelUtils.LoadSpec: `joblib.load` is assumed to succeed and to return a non-`None` object. A file that fails to unpickle (the exception would escape `predict`) or unpickles to `None` (the source would then return the "Modelo no cargado." pair at model_utils.py:45-46) is not modelled.
- ModelUtils.PredictSpec: `if _scaler:` (model_utils.py:82) tests truthiness; the model tests presence, so a loaded scaler object that is falsy is treated as applied.
- The `print` calls and the startup `try`/`except` around the loader (app.py:66-71) are left out.
- Concurrency is left out. The source has no locking, and requests are modelled one at a time.
