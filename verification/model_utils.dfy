/**
 * The prediction pipeline of model_utils.py: the five label-encoding
 * tables, the in-place rewriting of the 11-slot feature list, the load-once
 * guard over the process-wide classifier and scaler, and `predict`, which
 * answers with a (label, probability) pair or an (absent, error-text) pair.
 *
 * The trained classifier and the scaler are opaque: they are values of
 * function type that may fail (a `None` result stands for the library
 * raising). A file on disk is an `Option` holding what `joblib.load` would
 * return; `None` means the file does not exist.
 */
module ModelUtils {
  import opened Wrappers

  // ---------------------------------------------------------------------
  // Values held in the feature list
  // ---------------------------------------------------------------------

  /** A value of the feature list, as decoded from the request's JSON. */
  datatype Value =
    | Num(x: real)        // a JSON number (Python int or float)
    | Str(s: string)      // a JSON string
    | Bool(b: bool)       // a JSON boolean
    | Null                // JSON null
    | Composite           // a JSON array or object

  /**
   * Python's `float(v)`. The parse of a string is not modelled: `parse` says
   * which strings convert, and to what.
   */
  function ToFloat(v: Value, parse: string -> Option<real>): Option<real>
  {
    match v
    case Num(x) => Some(x)
    case Bool(b) => Some(if b then 1.0 else 0.0)
    case Str(s) => parse(s)
    case Null => None
    case Composite => None
  }

  // ---------------------------------------------------------------------
  // Label encoding
  // ---------------------------------------------------------------------

  /** The five categorical fields of the feature list. */
  datatype Field = Sex | ChestPainType | RestingECG | ExerciseAngina | StSlope

  const SexMap: map<string, int> := map["F" := 0, "M" := 1]
  const ChestPainMap: map<string, int> := map["ASY" := 0, "ATA" := 1, "NAP" := 2, "TA" := 3]
  const RestingEcgMap: map<string, int> := map["LVH" := 0, "Normal" := 1, "ST" := 2]
  const ExerciseAnginaMap: map<string, int> := map["N" := 0, "Y" := 1]
  const StSlopeMap: map<string, int> := map["Down" := 0, "Flat" := 1, "Up" := 2]

  /** The lookup table the source uses for field `f`. */
  function Table(f: Field): map<string, int>
  {
    match f
    case Sex => SexMap
    case ChestPainType => ChestPainMap
    case RestingECG => RestingEcgMap
    case ExerciseAngina => ExerciseAnginaMap
    case StSlope => StSlopeMap
  }

  /** The accepted labels of field `f`, listed in the order of their codes. */
  function Labels(f: Field): seq<string>
  {
    match f
    case Sex => ["F", "M"]
    case ChestPainType => ["ASY", "ATA", "NAP", "TA"]
    case RestingECG => ["LVH", "Normal", "ST"]
    case ExerciseAngina => ["N", "Y"]
    case StSlope => ["Down", "Flat", "Up"]
  }

  /**
   * `TABLE[v]`: the code of a label, or `None` where the source raises
   * (a label outside the table, or a value that is not a string). There is
   * no default code.
   */
  function Lookup(f: Field, v: Value): Option<int>
  {
    if v.Str? && v.s in Table(f) then Some(Table(f)[v.s]) else None
  }

  /**
   * A value has a code exactly when it is one of the field's labels, and the
   * code of a label is its position in `Labels(f)`.
   */
  lemma LookupMatchesLabels(f: Field, v: Value)
    ensures Lookup(f, v).Some? <==> v.Str? && v.s in Labels(f)
    ensures Lookup(f, v).Some? ==> 0 <= Lookup(f, v).value < |Labels(f)| && Labels(f)[Lookup(f, v).value] == v.s
  {
  }

  /** Each label maps to its documented code. */
  lemma DocumentedCodes()
    ensures Lookup(Sex, Str("F")) == Some(0) && Lookup(Sex, Str("M")) == Some(1)
    ensures Lookup(ChestPainType, Str("ASY")) == Some(0) && Lookup(ChestPainType, Str("ATA")) == Some(1)
    ensures Lookup(ChestPainType, Str("NAP")) == Some(2) && Lookup(ChestPainType, Str("TA")) == Some(3)
    ensures Lookup(RestingECG, Str("LVH")) == Some(0) && Lookup(RestingECG, Str("Normal")) == Some(1)
    ensures Lookup(RestingECG, Str("ST")) == Some(2)
    ensures Lookup(ExerciseAngina, Str("N")) == Some(0) && Lookup(ExerciseAngina, Str("Y")) == Some(1)
    ensures Lookup(StSlope, Str("Down")) == Some(0) && Lookup(StSlope, Str("Flat")) == Some(1)
    ensures Lookup(StSlope, Str("Up")) == Some(2)
  {
  }

  /** Distinct labels of one field never share a code. */
  lemma LookupInjective(f: Field, v: Value, w: Value)
    requires Lookup(f, v).Some? && Lookup(f, v) == Lookup(f, w)
    ensures v == w
  {
    LookupMatchesLabels(f, v);
    LookupMatchesLabels(f, w);
  }

  // ---------------------------------------------------------------------
  // Exceptions and the error text of a failed prediction
  // ---------------------------------------------------------------------

  /** The exceptions the core raises or catches. */
  datatype Exception =
    | UnknownLabel(key: Value)   // a table lookup raised (KeyError, or TypeError for an unhashable value)
    | SlotMissing                  // IndexError: the list is shorter than the slot index
    | NotNumeric(v: Value)         // float(...) raised (ValueError or TypeError)
    | NotAnArray                   // the list did not become a numeric array
    | ScalerFailed                 // the scaler's transform raised
    | ClassifierFailed             // the classifier's predict raised
    | ProbabilityFailed            // the classifier's predict_proba raised
    | NoPositiveColumn             // predict_proba returned fewer than two columns
    | ModelFileNotFound            // FileNotFoundError from the loader
    | MissingField(name: string)   // KeyError: the request lacks a field
    | NotAnObject                  // the request body did not decode to a JSON object

  const ModelPath := "best_random_forest_model.pkl"
  const ScalerPath := "scaler.pkl"

  /** `str(e)` for each exception; library messages are stood in for by fixed texts. */
  function Describe(e: Exception): string
  {
    match e
    case UnknownLabel(v) => KeyText(v)
    case SlotMissing => "list index out of range"
    case NotNumeric(v) =>
      if v.Str? then "could not convert string to float: '" + v.s + "'"
      else "float() argument must be a string or a real number"
    case NotAnArray => "could not convert the feature list to a numeric array"
    case ScalerFailed => "scaler transform failed"
    case ClassifierFailed => "classifier predict failed"
    case ProbabilityFailed => "classifier predict_proba failed"
    case NoPositiveColumn => "index 1 is out of bounds for axis 0 with size 1"
    case ModelFileNotFound => "Modelo no encontrado en " + ModelPath
    case MissingField(name) => "'" + name + "'"
    case NotAnObject => "the request body is not a JSON object"
  }

  /**
   * `str(KeyError(k))`, which is `repr(k)`: a string key in single quotes,
   * `True`/`False` and `None` as Python prints them; a number key and the
   * TypeError of an unhashable list or dict get fixed texts.
   */
  function KeyText(v: Value): string
  {
    match v
    case Str(s) => "'" + s + "'"
    case Bool(b) => if b then "True" else "False"
    case Null => "None"
    case Num(_) => "a number key"
    case Composite => "unhashable type"
  }

  const PredictionErrorPrefix := "Error en la predicción: "
  const NotLoadedText := "Modelo no cargado."

  /** Why `predict` returned no label. */
  datatype Reason = ModelNotLoaded | Caught(e: Exception)
  {
    /** The second component of the pair `predict` returns. */
    function Text(): string
    {
      match this
      case ModelNotLoaded => NotLoadedText
      case Caught(e) => PredictionErrorPrefix + Describe(e)
    }
  }

  /** The pair `predict` returns: `(int(label), probability)` or `(None, text)`. */
  datatype Pair = Labelled(prediction: int, probability: Option<real>) | Unlabelled(reason: Reason)

  // ---------------------------------------------------------------------
  // In-place rewriting of the feature list
  // ---------------------------------------------------------------------

  /**
   * One statement `list[i] = TABLE[list[i]]` (Encode) or
   * `list[i] = float(list[i])` (Coerce).
   */
  datatype Step = Encode(slot: nat, field: Field) | Coerce(slot: nat)

  /** The statements of `predict`, in source order. */
  const FeatureSteps: seq<Step> := [
    Encode(1, Sex), Encode(2, ChestPainType), Encode(6, RestingECG),
    Encode(8, ExerciseAngina), Encode(10, StSlope),
    Coerce(0), Coerce(3), Coerce(4), Coerce(5), Coerce(7), Coerce(9)]

  /** The slot of the feature list that holds field `f`. */
  function SlotOf(f: Field): (i: nat)
    ensures i < 11 && i !in NumericSlots
  {
    match f
    case Sex => 1
    case ChestPainType => 2
    case RestingECG => 6
    case ExerciseAngina => 8
    case StSlope => 10
  }

  /** The value statement `st` would store, judged on list `s`, or what it raises. */
  function StepResult(st: Step, s: seq<Value>, parse: string -> Option<real>): Result<Value, Exception>
  {
    if st.slot >= |s| then Failure(SlotMissing)
    else match st
      case Encode(i, f) =>
        (match Lookup(f, s[i])
         case Some(c) => Success(Num(c as real))
         case None => Failure(UnknownLabel(s[i])))
      case Coerce(i) =>
        (match ToFloat(s[i], parse)
         case Some(x) => Success(Num(x))
         case None => Failure(NotNumeric(s[i])))
  }

  /** The list after statement `st`, or the exception it raises. */
  function ApplyStep(st: Step, s: seq<Value>, parse: string -> Option<real>): (r: Result<seq<Value>, Exception>)
    ensures r.Success? <==> StepResult(st, s, parse).Success?
    ensures r.Success? ==> st.slot < |s| && r.value == s[st.slot := StepResult(st, s, parse).value]
    ensures r.Failure? ==> r.error == StepResult(st, s, parse).error
  {
    match StepResult(st, s, parse)
    case Success(v) => Success(s[st.slot := v])
    case Failure(e) => Failure(e)
  }

  /** The list after a run of statements, and the exception that stopped it, if any. */
  datatype Encoding = Encoding(list: seq<Value>, error: Option<Exception>)

  /**
   * Running statements one after another on the same list: each sees the
   * writes of the earlier ones, and an exception leaves the earlier writes
   * in place.
   */
  function Run(steps: seq<Step>, s: seq<Value>, parse: string -> Option<real>): (r: Encoding)
    ensures |r.list| == |s|
    decreases |steps|, |s|
  {
    if steps == [] then Encoding(s, None)
    else match ApplyStep(steps[0], s, parse)
      case Failure(e) => Encoding(s, Some(e))
      case Success(t) => Run(steps[1..], t, parse)
  }

  /** The index of the first statement that fails when judged on the ORIGINAL list `s`. */
  function FirstFailure(steps: seq<Step>, s: seq<Value>, parse: string -> Option<real>): (k: nat)
    ensures k <= |steps|
    ensures forall j :: 0 <= j < k ==> StepResult(steps[j], s, parse).Success?
    ensures k < |steps| ==> StepResult(steps[k], s, parse).Failure?
    decreases |steps|, |s|
  {
    if steps == [] then 0
    else if StepResult(steps[0], s, parse).Failure? then 0
    else 1 + FirstFailure(steps[1..], s, parse)
  }

  /** The slots a run of statements writes. */
  function Slots(steps: seq<Step>): set<nat>
    decreases |steps|
  {
    if steps == [] then {} else {steps[0].slot} + Slots(steps[1..])
  }

  /** A slot that no statement names is not written. */
  lemma {:induction false} NotInSlots(steps: seq<Step>, i: nat)
    requires forall j :: 0 <= j < |steps| ==> steps[j].slot != i
    ensures i !in Slots(steps)
    decreases |steps|
  {
    if steps != [] {
      NotInSlots(steps[1..], i);
    }
  }

  /** No two statements write the same slot. */
  ghost predicate DistinctSlots(steps: seq<Step>)
  {
    forall i, j :: 0 <= i < j < |steps| ==> steps[i].slot != steps[j].slot
  }

  /** A statement reads only its own slot. */
  lemma StepIgnoresOtherSlots(st: Step, s: seq<Value>, i: nat, v: Value, parse: string -> Option<real>)
    requires i < |s| && st.slot != i
    ensures StepResult(st, s[i := v], parse) == StepResult(st, s, parse)
  {
  }

  /** Hence the first failure is the same on a list that differs only outside the statements' slots. */
  lemma {:induction false} FirstFailureIgnoresOtherSlots(steps: seq<Step>, s: seq<Value>, i: nat, v: Value, parse: string -> Option<real>)
    requires i < |s| && i !in Slots(steps)
    ensures FirstFailure(steps, s[i := v], parse) == FirstFailure(steps, s, parse)
    decreases |steps|
  {
    if steps != [] {
      StepIgnoresOtherSlots(steps[0], s, i, v, parse);
      FirstFailureIgnoresOtherSlots(steps[1..], s, i, v, parse);
    }
  }

  /**
   * The sequential run equals a closed form: with k the first statement that
   * fails on the original list, the run reports that statement's exception
   * (or none when k is past the end), statements before k have stored their
   * values, and every slot they do not write keeps its original value.
   */
  lemma {:induction false} RunMatchesClosedForm(steps: seq<Step>, s: seq<Value>, parse: string -> Option<real>)
    requires DistinctSlots(steps)
    ensures var k := FirstFailure(steps, s, parse);
      var r := Run(steps, s, parse);
      |r.list| == |s| &&
      r.error == (if k == |steps| then None else Some(StepResult(steps[k], s, parse).error)) &&
      (forall j :: 0 <= j < k ==> steps[j].slot < |s| && r.list[steps[j].slot] == StepResult(steps[j], s, parse).value) &&
      (forall i :: 0 <= i < |s| && i !in Slots(steps[..k]) ==> r.list[i] == s[i])
    decreases |steps|
  {
    if steps == [] {
      return;
    }
    var st := steps[0];
    if StepResult(st, s, parse).Failure? {
      assert steps[..0] == [];
      return;
    }
    var v := StepResult(st, s, parse).value;
    var t := s[st.slot := v];
    var rest := steps[1..];
    forall j | 0 <= j < |rest| ensures rest[j].slot != st.slot {
      assert rest[j] == steps[j + 1];
    }
    NotInSlots(rest, st.slot);
    FirstFailureIgnoresOtherSlots(rest, s, st.slot, v, parse);
    RunMatchesClosedForm(rest, t, parse);
    var k' := FirstFailure(rest, s, parse);
    var k := FirstFailure(steps, s, parse);
    assert k == k' + 1;
    assert steps[..k][0] == st && steps[..k][1..] == rest[..k'];
    NotInSlots(rest[..k'], st.slot);
    forall j | 0 <= j < |rest| ensures StepResult(rest[j], t, parse) == StepResult(rest[j], s, parse) {
      StepIgnoresOtherSlots(rest[j], s, st.slot, v, parse);
    }
    forall j | 0 <= j < k
      ensures steps[j].slot < |s| && Run(steps, s, parse).list[steps[j].slot] == StepResult(steps[j], s, parse).value
    {
      if j > 0 {
        assert steps[j] == rest[j - 1];
      }
    }
  }

  /** A run raises nothing exactly when every statement succeeds on the original list. */
  lemma RunSucceedsIff(steps: seq<Step>, s: seq<Value>, parse: string -> Option<real>)
    requires DistinctSlots(steps)
    ensures Run(steps, s, parse).error.None? <==>
      forall j :: 0 <= j < |steps| ==> StepResult(steps[j], s, parse).Success?
  {
    RunMatchesClosedForm(steps, s, parse);
  }

  /**
   * A run of conversions only, covering exactly the slots `slots`, raises
   * nothing exactly when each of those slots is present and convertible.
   */
  lemma CoercionsSucceedIff(steps: seq<Step>, s: seq<Value>, parse: string -> Option<real>, slots: set<nat>)
    requires DistinctSlots(steps)
    requires forall j :: 0 <= j < |steps| ==> steps[j].Coerce? && steps[j].slot in slots
    requires forall i :: i in slots ==> exists j :: 0 <= j < |steps| && steps[j] == Coerce(i)
    ensures Run(steps, s, parse).error.None? <==>
      forall i :: i in slots ==> i < |s| && ToFloat(s[i], parse).Some?
  {
    RunSucceedsIff(steps, s, parse);
    if Run(steps, s, parse).error.None? {
      forall i | i in slots ensures i < |s| && ToFloat(s[i], parse).Some? {
        var j :| 0 <= j < |steps| && steps[j] == Coerce(i);
        assert StepResult(steps[j], s, parse).Success?;
      }
    }
  }

  /** A statement before the first failure has stored its value. */
  lemma RunWrote(steps: seq<Step>, s: seq<Value>, parse: string -> Option<real>, j: nat)
    requires DistinctSlots(steps) && j < FirstFailure(steps, s, parse)
    ensures steps[j].slot < |s| && Run(steps, s, parse).list[steps[j].slot] == StepResult(steps[j], s, parse).value
  {
    RunMatchesClosedForm(steps, s, parse);
  }

  /** After a run that raised nothing, every statement has stored its value. */
  lemma RunStored(steps: seq<Step>, s: seq<Value>, parse: string -> Option<real>, j: nat)
    requires DistinctSlots(steps) && Run(steps, s, parse).error.None? && j < |steps|
    ensures StepResult(steps[j], s, parse).Success?
    ensures steps[j].slot < |s| && Run(steps, s, parse).list[steps[j].slot] == StepResult(steps[j], s, parse).value
  {
    RunMatchesClosedForm(steps, s, parse);
  }

  /** After a run that raised nothing, a converted slot holds `float` of its original value. */
  lemma RunStoredNumber(steps: seq<Step>, s: seq<Value>, parse: string -> Option<real>, j: nat, i: nat)
    requires DistinctSlots(steps) && Run(steps, s, parse).error.None? && j < |steps| && steps[j] == Coerce(i)
    ensures i < |s| && ToFloat(s[i], parse).Some?
    ensures Run(steps, s, parse).list[i] == Num(ToFloat(s[i], parse).value)
  {
    RunStored(steps, s, parse, j);
  }

  /** A slot that no statement before the first failure writes keeps its value. */
  lemma RunKept(steps: seq<Step>, s: seq<Value>, parse: string -> Option<real>, i: nat)
    requires DistinctSlots(steps) && i < |s|
    requires forall j :: 0 <= j < FirstFailure(steps, s, parse) ==> steps[j].slot != i
    ensures Run(steps, s, parse).list[i] == s[i]
  {
    var k := FirstFailure(steps, s, parse);
    NotInSlots(steps[..k], i);
    RunMatchesClosedForm(steps, s, parse);
  }

  /** Every statement's slot is among the slots the run writes. */
  lemma {:induction false} SlotInSlots(steps: seq<Step>, j: nat)
    requires j < |steps|
    ensures steps[j].slot in Slots(steps)
    decreases j
  {
    if j > 0 {
      assert steps[j] == steps[1..][j - 1];
      SlotInSlots(steps[1..], j - 1);
    }
  }

  /**
   * Two lists on which every statement has the same result, and which differ
   * only in slots the statements write, give runs with the same exception
   * and, when nothing is raised, the same final list.
   */
  lemma {:induction false} RunsAgree(steps: seq<Step>, s: seq<Value>, t: seq<Value>, parse: string -> Option<real>)
    requires DistinctSlots(steps) && |s| == |t|
    requires forall j :: 0 <= j < |steps| ==> StepResult(steps[j], s, parse) == StepResult(steps[j], t, parse)
    requires forall i :: 0 <= i < |s| && i !in Slots(steps) ==> s[i] == t[i]
    ensures Run(steps, s, parse).error == Run(steps, t, parse).error
    ensures Run(steps, s, parse).error.None? ==> Run(steps, s, parse).list == Run(steps, t, parse).list
    decreases |steps|
  {
    if steps == [] {
      assert s == t;
      return;
    }
    var st := steps[0];
    assert StepResult(st, s, parse) == StepResult(st, t, parse);
    if StepResult(st, s, parse).Success? {
      var v := StepResult(st, s, parse).value;
      var rest := steps[1..];
      forall j | 0 <= j < |rest| ensures rest[j].slot != st.slot {
        assert rest[j] == steps[j + 1];
      }
      forall j | 0 <= j < |rest|
        ensures StepResult(rest[j], s[st.slot := v], parse) == StepResult(rest[j], t[st.slot := v], parse)
      {
        assert rest[j] == steps[j + 1];
        StepIgnoresOtherSlots(rest[j], s, st.slot, v, parse);
        StepIgnoresOtherSlots(rest[j], t, st.slot, v, parse);
      }
      assert DistinctSlots(rest) by {
        forall i, j | 0 <= i < j < |rest| ensures rest[i].slot != rest[j].slot {
          assert rest[i] == steps[i + 1] && rest[j] == steps[j + 1];
        }
      }
      RunsAgree(rest, s[st.slot := v], t[st.slot := v], parse);
    }
  }

  /** The first failure is at k when the statements before k succeed and statement k fails. */
  lemma {:induction false} FirstFailureAt(steps: seq<Step>, s: seq<Value>, parse: string -> Option<real>, k: nat)
    requires k < |steps|
    requires forall j :: 0 <= j < k ==> StepResult(steps[j], s, parse).Success?
    requires StepResult(steps[k], s, parse).Failure?
    ensures FirstFailure(steps, s, parse) == k
    decreases k
  {
    if k > 0 {
      assert StepResult(steps[0], s, parse).Success?;
      forall j | 0 <= j < k - 1 ensures StepResult(steps[1..][j], s, parse).Success? {
        assert steps[1..][j] == steps[j + 1];
      }
      FirstFailureAt(steps[1..], s, parse, k - 1);
    }
  }

  /** The statements of `predict` write eleven distinct slots. */
  lemma FeatureStepsDistinct()
    ensures DistinctSlots(FeatureSteps)
  {
  }

  /**
   * What `predict` needs of its list for the encoding to raise nothing: all
   * eleven slots, a table label in each categorical slot, and a convertible
   * value in each numeric slot.
   */
  ghost predicate Encodable(s: seq<Value>, parse: string -> Option<real>)
  {
    |s| >= 11 &&
    (forall f :: Lookup(f, s[SlotOf(f)]).Some?) &&
    (forall i :: i in NumericSlots ==> i < |s| && ToFloat(s[i], parse).Some?)
  }

  /** Each statement of `predict` encodes a field in its own slot or converts a numeric slot. */
  lemma FeatureStepsShape()
    ensures forall j :: 0 <= j < |FeatureSteps| ==>
      (FeatureSteps[j].Encode? ==> FeatureSteps[j].slot == SlotOf(FeatureSteps[j].field)) &&
      (FeatureSteps[j].Coerce? ==> FeatureSteps[j].slot in NumericSlots)
  {
  }

  /** Every statement of `predict` succeeds on the original list exactly when it is encodable. */
  lemma FeatureStepsSucceedIff(s: seq<Value>, parse: string -> Option<real>)
    ensures (forall j :: 0 <= j < |FeatureSteps| ==> StepResult(FeatureSteps[j], s, parse).Success?) <==>
      Encodable(s, parse)
  {
    if forall j :: 0 <= j < |FeatureSteps| ==> StepResult(FeatureSteps[j], s, parse).Success? {
      assert StepResult(FeatureSteps[4], s, parse).Success?;
      forall f ensures Lookup(f, s[SlotOf(f)]).Some? {
        assert StepResult(FeatureSteps[EncodeIndex(f)], s, parse).Success?;
      }
      forall i | i in NumericSlots ensures i < |s| && ToFloat(s[i], parse).Some? {
        assert StepResult(FeatureSteps[CoerceIndex(i)], s, parse).Success?;
      }
    }
    if Encodable(s, parse) {
      FeatureStepsShape();
      forall j | 0 <= j < |FeatureSteps| ensures StepResult(FeatureSteps[j], s, parse).Success? {
        if FeatureSteps[j].Encode? {
          assert Lookup(FeatureSteps[j].field, s[SlotOf(FeatureSteps[j].field)]).Some?;
        } else {
          assert FeatureSteps[j].slot in NumericSlots;
        }
      }
    }
  }

  /**
   * The encoding of `predict` raises nothing exactly when the list has all
   * eleven slots, every label is in its table and every numeric slot
   * converts; whatever happens, the list keeps its length.
   */
  lemma EncodingSucceedsIff(s: seq<Value>, parse: string -> Option<real>)
    ensures Run(FeatureSteps, s, parse).error.None? <==> Encodable(s, parse)
    ensures |Run(FeatureSteps, s, parse).list| == |s|
  {
    FeatureStepsDistinct();
    RunMatchesClosedForm(FeatureSteps, s, parse);
    RunSucceedsIff(FeatureSteps, s, parse);
    FeatureStepsSucceedIff(s, parse);
  }

  /** The statement of `predict` that encodes field `f`. */
  function EncodeIndex(f: Field): (j: nat)
    ensures j < 5 && FeatureSteps[j] == Encode(SlotOf(f), f)
  {
    match f
    case Sex => 0
    case ChestPainType => 1
    case RestingECG => 2
    case ExerciseAngina => 3
    case StSlope => 4
  }

  /** The slots `predict` converts with `float(...)`. */
  const NumericSlots: set<nat> := {0, 3, 4, 5, 7, 9}

  /** The statement of `predict` that converts numeric slot `i`. */
  function CoerceIndex(i: nat): (j: nat)
    requires i in NumericSlots
    ensures 5 <= j < 11 && FeatureSteps[j] == Coerce(i)
  {
    if i == 0 then 5 else if i == 3 then 6 else if i == 4 then 7
    else if i == 5 then 8 else if i == 7 then 9 else 10
  }

  /** On an encodable list no statement of `predict` fails. */
  lemma EncodableRunsThrough(s: seq<Value>, parse: string -> Option<real>)
    requires Encodable(s, parse)
    ensures FirstFailure(FeatureSteps, s, parse) == |FeatureSteps|
  {
    FeatureStepsSucceedIff(s, parse);
  }

  /** After a successful encoding, the slot of field `f` holds the code of its label. */
  lemma EncodedLabel(s: seq<Value>, parse: string -> Option<real>, f: Field)
    requires Encodable(s, parse)
    ensures Run(FeatureSteps, s, parse).list[SlotOf(f)] == Num(Lookup(f, s[SlotOf(f)]).value as real)
  {
    FeatureStepsDistinct();
    EncodableRunsThrough(s, parse);
    RunWrote(FeatureSteps, s, parse, EncodeIndex(f));
  }

  /** After a successful encoding, numeric slot `i` holds `float` of its value. */
  lemma EncodedNumber(s: seq<Value>, parse: string -> Option<real>, i: nat)
    requires Encodable(s, parse) && i in NumericSlots
    ensures Run(FeatureSteps, s, parse).list[i] == Num(ToFloat(s[i], parse).value)
  {
    FeatureStepsDistinct();
    EncodableRunsThrough(s, parse);
    RunWrote(FeatureSteps, s, parse, CoerceIndex(i));
  }

  /** A run never changes a slot that none of its statements names. */
  lemma {:induction false} RunKeepsUnnamedSlot(steps: seq<Step>, s: seq<Value>, parse: string -> Option<real>, i: nat)
    requires i < |s|
    requires forall j :: 0 <= j < |steps| ==> steps[j].slot != i
    ensures Run(steps, s, parse).list[i] == s[i]
    decreases |steps|
  {
    if steps != [] {
      var a := ApplyStep(steps[0], s, parse);
      if a.Success? {
        forall j | 0 <= j < |steps| - 1 ensures steps[1..][j].slot != i {
          assert steps[1..][j] == steps[j + 1];
        }
        RunKeepsUnnamedSlot(steps[1..], a.value, parse, i);
      }
    }
  }

  /** Whatever happens, encoding leaves slots past the eleventh as they were. */
  lemma EncodingKeepsExtraSlots(s: seq<Value>, parse: string -> Option<real>, i: nat)
    requires 11 <= i < |s|
    ensures Run(FeatureSteps, s, parse).list[i] == s[i]
  {
    RunKeepsUnnamedSlot(FeatureSteps, s, parse, i);
  }

  /**
   * Encoding runs in slot order 1, 2, 6, 8, 10: when only the ST_Slope label
   * (slot 10) is unknown, the caller's list already holds the codes of the
   * four earlier labels, while slot 10 and the numeric slots are untouched.
   */
  lemma LateBadLabelKeepsEarlierCodes(s: seq<Value>, parse: string -> Option<real>)
    requires |s| >= 11
    requires Lookup(Sex, s[1]).Some? && Lookup(ChestPainType, s[2]).Some?
    requires Lookup(RestingECG, s[6]).Some? && Lookup(ExerciseAngina, s[8]).Some?
    requires Lookup(StSlope, s[10]).None?
    ensures var r := Run(FeatureSteps, s, parse);
      r.error == Some(UnknownLabel(s[10])) &&
      (forall f :: f != StSlope ==> r.list[SlotOf(f)] == Num(Lookup(f, s[SlotOf(f)]).value as real)) &&
      (forall i :: 0 <= i < |s| && i != 1 && i != 2 && i != 6 && i != 8 ==> r.list[i] == s[i])
  {
    FeatureStepsDistinct();
    SlopeIsFirstFailure(s, parse);
    RunMatchesClosedForm(FeatureSteps, s, parse);
    forall f | f != StSlope
      ensures Run(FeatureSteps, s, parse).list[SlotOf(f)] == Num(Lookup(f, s[SlotOf(f)]).value as real)
    {
      RunWrote(FeatureSteps, s, parse, EncodeIndex(f));
    }
    forall i | 0 <= i < |s| && i != 1 && i != 2 && i != 6 && i != 8
      ensures Run(FeatureSteps, s, parse).list[i] == s[i]
    {
      RunKept(FeatureSteps, s, parse, i);
    }
  }

  /**
   * Encoding runs in slot order 1, 2, 6, 8, 10: when some label is unknown,
   * the encoding raises KeyError on the first unknown one (field `g`); the
   * caller's list then already holds the codes of every earlier categorical
   * slot, and every slot no earlier statement writes keeps its value.
   */
  lemma BadLabelKeepsEarlierCodes(s: seq<Value>, parse: string -> Option<real>, f: Field)
    requires |s| >= 11 && Lookup(f, s[SlotOf(f)]).None?
    ensures exists g :: (Lookup(g, s[SlotOf(g)]).None? &&
      Run(FeatureSteps, s, parse).error == Some(UnknownLabel(s[SlotOf(g)])) &&
      (forall h :: EncodeIndex(h) < EncodeIndex(g) ==>
        (Lookup(h, s[SlotOf(h)]).Some? &&
         Run(FeatureSteps, s, parse).list[SlotOf(h)] == Num(Lookup(h, s[SlotOf(h)]).value as real))) &&
      (forall i :: 0 <= i < |s| && (forall j :: 0 <= j < EncodeIndex(g) ==> FeatureSteps[j].slot != i) ==>
        Run(FeatureSteps, s, parse).list[i] == s[i]))
  {
    var g := FirstUnknownLabel(s, parse, f);
    FailureAtField(s, parse, g);
    EarlierCodesStored(s, parse, g);
    UnwrittenSlotsKept(s, parse, g);
  }

  /** When `g` is the first field whose label is unknown, its statement is the first to fail. */
  lemma FailureAtField(s: seq<Value>, parse: string -> Option<real>, g: Field)
    requires |s| >= 11 && Lookup(g, s[SlotOf(g)]).None?
    requires forall h :: EncodeIndex(h) < EncodeIndex(g) ==> Lookup(h, s[SlotOf(h)]).Some?
    ensures FirstFailure(FeatureSteps, s, parse) == EncodeIndex(g)
  {
    var k := EncodeIndex(g);
    forall j | 0 <= j < k ensures StepResult(FeatureSteps[j], s, parse).Success? {
      assert EncodeIndex(FeatureSteps[j].field) == j;
    }
    FirstFailureAt(FeatureSteps, s, parse, k);
  }

  /** The statements before the first failure at field `g` have stored their codes. */
  lemma EarlierCodesStored(s: seq<Value>, parse: string -> Option<real>, g: Field)
    requires |s| >= 11 && FirstFailure(FeatureSteps, s, parse) == EncodeIndex(g)
    ensures forall h :: EncodeIndex(h) < EncodeIndex(g) ==>
      (Lookup(h, s[SlotOf(h)]).Some? &&
       Run(FeatureSteps, s, parse).list[SlotOf(h)] == Num(Lookup(h, s[SlotOf(h)]).value as real))
  {
    FeatureStepsDistinct();
    forall h | EncodeIndex(h) < EncodeIndex(g)
      ensures Lookup(h, s[SlotOf(h)]).Some? &&
        Run(FeatureSteps, s, parse).list[SlotOf(h)] == Num(Lookup(h, s[SlotOf(h)]).value as real)
    {
      RunWrote(FeatureSteps, s, parse, EncodeIndex(h));
    }
  }

  /** The slots no statement before the first failure at field `g` writes keep their values. */
  lemma UnwrittenSlotsKept(s: seq<Value>, parse: string -> Option<real>, g: Field)
    requires FirstFailure(FeatureSteps, s, parse) == EncodeIndex(g)
    ensures forall i :: 0 <= i < |s| && (forall j :: 0 <= j < EncodeIndex(g) ==> FeatureSteps[j].slot != i) ==>
      Run(FeatureSteps, s, parse).list[i] == s[i]
  {
    FeatureStepsDistinct();
    forall i | 0 <= i < |s| && (forall j :: 0 <= j < EncodeIndex(g) ==> FeatureSteps[j].slot != i)
      ensures Run(FeatureSteps, s, parse).list[i] == s[i]
    {
      RunKept(FeatureSteps, s, parse, i);
    }
  }

  /** With only the ST_Slope label unknown, the fifth statement is the first to fail. */
  lemma SlopeIsFirstFailure(s: seq<Value>, parse: string -> Option<real>)
    requires |s| >= 11
    requires Lookup(Sex, s[1]).Some? && Lookup(ChestPainType, s[2]).Some?
    requires Lookup(RestingECG, s[6]).Some? && Lookup(ExerciseAngina, s[8]).Some?
    requires Lookup(StSlope, s[10]).None?
    ensures FirstFailure(FeatureSteps, s, parse) == 4
    ensures StepResult(FeatureSteps[4], s, parse) == Failure(UnknownLabel(s[10]))
  {
    FirstFailureAt(FeatureSteps, s, parse, 4);
  }

  /**
   * The numeric array `np.array(list)`: it is numeric only when every slot
   * holds a number.
   */
  function AsVector(s: seq<Value>): (r: Option<seq<real>>)
    ensures r.Some? <==> forall i :: 0 <= i < |s| ==> s[i].Num?
    ensures r.Some? ==> |r.value| == |s| && forall i :: 0 <= i < |s| ==> r.value[i] == s[i].x
  {
    if forall i :: 0 <= i < |s| ==> s[i].Num? then Some(seq(|s|, i requires 0 <= i < |s| => s[i].x)) else None
  }

  /** The categorical field held in slot `i`. */
  function FieldAt(i: nat): (f: Field)
    requires i in {1, 2, 6, 8, 10}
    ensures SlotOf(f) == i
  {
    if i == 1 then Sex else if i == 2 then ChestPainType else if i == 6 then RestingECG
    else if i == 8 then ExerciseAngina else StSlope
  }

  /** An encoded list of exactly eleven slots always converts to a numeric vector. */
  lemma ElevenEncodedSlotsVectorise(s: seq<Value>, parse: string -> Option<real>)
    requires |s| == 11 && Encodable(s, parse)
    ensures AsVector(Run(FeatureSteps, s, parse).list).Some?
  {
    forall i | 0 <= i < 11 ensures Run(FeatureSteps, s, parse).list[i].Num? {
      if i in NumericSlots {
        EncodedNumber(s, parse, i);
      } else {
        EncodedLabel(s, parse, FieldAt(i));
      }
    }
  }

  // ---------------------------------------------------------------------
  // The opaque artifacts and inference
  // ---------------------------------------------------------------------

  /**
   * A trained classifier. `predict` gives the label of one row, `predictProba`
   * (absent when the object has no `predict_proba`) its class probabilities;
   * `None` from either stands for the library raising.
   */
  datatype Classifier = Classifier(
    predict: seq<real> -> Option<int>,
    predictProba: Option<seq<real> -> Option<seq<real>>>)

  /** A fitted scaler; `None` from `transform` stands for the library raising. */
  datatype Scaler = Scaler(transform: seq<real> -> Option<seq<real>>)

  /**
   * Classification of an already scaled row: the label, and the positive
   * class column of `predict_proba` when the classifier has one.
   */
  function Classify(clf: Classifier, x: seq<real>): (r: Pair)
    ensures r.Labelled? <==>
      clf.predict(x).Some? &&
      (clf.predictProba.Some? ==> clf.predictProba.value(x).Some? && |clf.predictProba.value(x).value| >= 2)
    ensures r.Labelled? ==> r.prediction == clf.predict(x).value
    ensures r.Labelled? ==> (r.probability.None? <==> clf.predictProba.None?)
    ensures r.Labelled? && r.probability.Some? ==> r.probability.value == clf.predictProba.value(x).value[1]
    ensures r.Unlabelled? ==> r.reason.Caught?
  {
    match clf.predict(x)
    case None => Unlabelled(Caught(ClassifierFailed))
    case Some(prediction) =>
      match clf.predictProba
      case None => Labelled(prediction, None)
      case Some(proba) =>
        match proba(x)
        case None => Unlabelled(Caught(ProbabilityFailed))
        case Some(p) => if |p| < 2 then Unlabelled(Caught(NoPositiveColumn)) else Labelled(prediction, Some(p[1]))
  }

  /** Scaling, when a scaler is loaded, followed by classification. */
  function Infer(clf: Classifier, scaler: Option<Scaler>, v: seq<real>): (r: Pair)
    ensures r.Unlabelled? ==> r.reason.Caught?
  {
    if scaler.None? then Classify(clf, v)
    else match scaler.value.transform(v)
      case None => Unlabelled(Caught(ScalerFailed))
      case Some(w) => Classify(clf, w)
  }

  /**
   * Unfolding lemma for `Infer`, one equation per branch; the property it
   * serves is `EncodableListIsClassified`.
   */
  lemma ScalerAppliedOnce(clf: Classifier, scaler: Option<Scaler>, v: seq<real>)
    ensures scaler.None? ==> Infer(clf, scaler, v) == Classify(clf, v)
    ensures scaler.Some? && scaler.value.transform(v).Some? ==>
      Infer(clf, scaler, v) == Classify(clf, scaler.value.transform(v).value)
    ensures scaler.Some? && scaler.value.transform(v).None? ==>
      Infer(clf, scaler, v) == Unlabelled(Caught(ScalerFailed))
  {
  }

  // ---------------------------------------------------------------------
  // The load-once state and predict
  // ---------------------------------------------------------------------

  /** The module globals `_model` and `_scaler`. */
  datatype Artifacts = Artifacts(model: Option<Classifier>, scaler: Option<Scaler>)

  /** What `joblib.load` finds at the two paths; `None` when the file does not exist. */
  datatype Disk = Disk(modelFile: Option<Classifier>, scalerFile: Option<Scaler>)

  /** The globals are only ever set together with or after the model. */
  ghost predicate Consistent(st: Artifacts)
  {
    st.model.None? ==> st.scaler.None?
  }

  /** The globals after `load_model_and_scaler`, and the exception it raises, if any. */
  datatype LoadRun = LoadRun(state: Artifacts, raised: Option<Exception>)

  function LoadSpec(st: Artifacts, disk: Disk): (r: LoadRun)
  {
    if st.model.Some? then LoadRun(st, None)
    else if disk.modelFile.None? then LoadRun(st, Some(ModelFileNotFound))
    else LoadRun(Artifacts(disk.modelFile, if disk.scalerFile.Some? then disk.scalerFile else st.scaler), None)
  }

  /**
   * Loading either raises FileNotFoundError and changes nothing, or leaves a
   * model in place; a consistent state stays consistent.
   */
  lemma LoadOutcome(st: Artifacts, disk: Disk)
    requires Consistent(st)
    ensures var r := LoadSpec(st, disk);
      Consistent(r.state) &&
      (r.raised.Some? <==> st.model.None? && disk.modelFile.None?) &&
      (r.raised.Some? ==> r.raised.value == ModelFileNotFound && r.state == st) &&
      (r.raised.None? ==> r.state.model.Some?)
  {
  }

  /** Once a model is held, a further load changes neither global, whatever is on disk. */
  lemma LoadIsIdempotent(st: Artifacts, first: Disk, later: Disk)
    requires LoadSpec(st, first).raised.None?
    ensures var s1 := LoadSpec(st, first).state;
      LoadSpec(s1, later) == LoadRun(s1, None)
  {
  }

  /**
   * A first load with the model file present sets `_model` to its content;
   * `_scaler` is set when its file is present and otherwise stays unset.
   */
  lemma FirstLoadSetsGlobals(st: Artifacts, disk: Disk)
    requires Consistent(st) && st.model.None? && disk.modelFile.Some?
    ensures var r := LoadSpec(st, disk);
      r.raised.None? && r.state.model == disk.modelFile && r.state.scaler == disk.scalerFile
  {
  }

  /** The globals, the caller's list and the outcome after one `predict` call. */
  datatype PredictRun = PredictRun(state: Artifacts, list: seq<Value>, out: Outcome<Pair, Exception>)

  function PredictSpec(st: Artifacts, disk: Disk, s: seq<Value>, parse: string -> Option<real>): PredictRun
  {
    var loaded := LoadSpec(st, disk);
    if loaded.raised.Some? then PredictRun(loaded.state, s, Raised(loaded.raised.value))
    else if loaded.state.model.None? then PredictRun(loaded.state, s, Returned(Unlabelled(ModelNotLoaded)))
    else
      var enc := Run(FeatureSteps, s, parse);
      if enc.error.Some? then PredictRun(loaded.state, enc.list, Returned(Unlabelled(Caught(enc.error.value))))
      else match AsVector(enc.list)
        case None => PredictRun(loaded.state, enc.list, Returned(Unlabelled(Caught(NotAnArray))))
        case Some(v) => PredictRun(loaded.state, enc.list, Returned(Infer(loaded.state.model.value, loaded.state.scaler, v)))
  }

  /**
   * `predict` raises (rather than returning a pair) exactly when no model is
   * held and the model file is absent, because the loader is called outside
   * the `try`; the list and the globals are then untouched. The
   * "Modelo no cargado." pair is never returned.
   */
  lemma PredictRaisesOnlyWithoutModelFile(st: Artifacts, disk: Disk, s: seq<Value>, parse: string -> Option<real>)
    ensures var r := PredictSpec(st, disk, s, parse);
      (r.out.Raised? <==> st.model.None? && disk.modelFile.None?) &&
      (r.out.Raised? ==> r.out.error == ModelFileNotFound && r.state == st && r.list == s) &&
      r.out != Returned(Unlabelled(ModelNotLoaded))
  {
    var loaded := LoadSpec(st, disk);
    if loaded.raised.None? {
      assert loaded.state.model.Some?;
      var enc := Run(FeatureSteps, s, parse);
      if enc.error.None? && AsVector(enc.list).Some? {
        var p := Infer(loaded.state.model.value, loaded.state.scaler, AsVector(enc.list).value);
        assert p.Unlabelled? ==> p.reason.Caught?;
      }
    }
  }

  /**
   * With a model available, an 11-slot list that encodes is classified: the
   * caller's list ends up holding the encoded features, which form a numeric
   * row; without a scaler the classifier sees that row, with one it sees the
   * row transformed exactly once, and a failing transform gives the error
   * pair.
   */
  lemma EncodableListIsClassified(st: Artifacts, disk: Disk, s: seq<Value>, parse: string -> Option<real>)
    requires Consistent(st) && (st.model.Some? || disk.modelFile.Some?)
    requires |s| == 11 && Encodable(s, parse)
    ensures var r := PredictSpec(st, disk, s, parse);
      var enc := Run(FeatureSteps, s, parse).list;
      r.state == LoadSpec(st, disk).state && r.state.model.Some? &&
      r.list == enc && AsVector(enc).Some? &&
      (r.state.scaler.None? ==>
        r.out == Returned(Classify(r.state.model.value, AsVector(enc).value))) &&
      (r.state.scaler.Some? && r.state.scaler.value.transform(AsVector(enc).value).Some? ==>
        r.out == Returned(Classify(r.state.model.value, r.state.scaler.value.transform(AsVector(enc).value).value))) &&
      (r.state.scaler.Some? && r.state.scaler.value.transform(AsVector(enc).value).None? ==>
        r.out == Returned(Unlabelled(Caught(ScalerFailed))))
  {
    EncodingSucceedsIff(s, parse);
    ElevenEncodedSlotsVectorise(s, parse);
  }

  /**
   * With a model available, a label outside its table makes `predict` return
   * `(None, "Error en la predicción: ...")` naming the first unknown label in
   * slot order (slots 1, 2, 6, 8, 10), instead of raising.
   */
  lemma UnknownLabelGivesErrorPair(st: Artifacts, disk: Disk, s: seq<Value>, parse: string -> Option<real>, f: Field)
    requires st.model.Some? || disk.modelFile.Some?
    requires |s| >= 11 && Lookup(f, s[SlotOf(f)]).None?
    ensures var r := PredictSpec(st, disk, s, parse);
      r.out.Returned? && r.out.value.Unlabelled? && r.out.value.reason.Caught? &&
      r.out.value.reason.Text() == PredictionErrorPrefix + Describe(r.out.value.reason.e) &&
      exists g :: (Lookup(g, s[SlotOf(g)]).None? && r.out.value.reason.e == UnknownLabel(s[SlotOf(g)]) &&
        forall h :: EncodeIndex(h) < EncodeIndex(g) ==> Lookup(h, s[SlotOf(h)]).Some?)
  {
    var g := FirstUnknownLabel(s, parse, f);
    assert Run(FeatureSteps, s, parse).error.Some?;
  }

  /**
   * When some label is unknown, the encoding raises KeyError on the first
   * unknown label in slot order; `g` is its field.
   */
  lemma FirstUnknownLabel(s: seq<Value>, parse: string -> Option<real>, f: Field) returns (g: Field)
    requires |s| >= 11 && Lookup(f, s[SlotOf(f)]).None?
    ensures Lookup(g, s[SlotOf(g)]).None?
    ensures Run(FeatureSteps, s, parse).error == Some(UnknownLabel(s[SlotOf(g)]))
    ensures forall h :: EncodeIndex(h) < EncodeIndex(g) ==> Lookup(h, s[SlotOf(h)]).Some?
  {
    FeatureStepsDistinct();
    var j := EncodeIndex(f);
    RunMatchesClosedForm(FeatureSteps, s, parse);
    var k := FirstFailure(FeatureSteps, s, parse);
    assert k <= j by {
      assert StepResult(FeatureSteps[j], s, parse).Failure?;
    }
    assert FeatureSteps[k].Encode? && FeatureSteps[k].slot < 11;
    g := FeatureSteps[k].field;
    assert EncodeIndex(g) == k;
    forall h | EncodeIndex(h) < EncodeIndex(g) ensures Lookup(h, s[SlotOf(h)]).Some? {
      assert StepResult(FeatureSteps[EncodeIndex(h)], s, parse).Success?;
    }
  }

  /**
   * A label in the result pair means the list was fully encodable; the
   * caller's list then holds the encoded features and the probability is
   * absent exactly when the classifier has no `predict_proba`.
   */
  lemma LabelledMeansEncoded(st: Artifacts, disk: Disk, s: seq<Value>, parse: string -> Option<real>)
    requires Consistent(st)
    ensures var r := PredictSpec(st, disk, s, parse);
      r.out.Returned? && r.out.value.Labelled? ==>
        Encodable(s, parse) && r.list == Run(FeatureSteps, s, parse).list &&
        r.state.model.Some? &&
        (r.out.value.probability.None? <==> r.state.model.value.predictProba.None?)
  {
    var r := PredictSpec(st, disk, s, parse);
    if r.out.Returned? && r.out.value.Labelled? {
      EncodingSucceedsIff(s, parse);
      var v := AsVector(Run(FeatureSteps, s, parse).list).value;
      var sc := r.state.scaler;
      ScalerAppliedOnce(r.state.model.value, sc, v);
    }
  }

  /**
   * The process-wide predictor: `_model` and `_scaler` with the loader and
   * `predict` that read and set them.
   */
  class Predictor {
    var model: Option<Classifier>
    var scaler: Option<Scaler>

    ghost predicate Valid()
      reads this
    {
      Consistent(Artifacts(model, scaler))
    }

    function State(): Artifacts
      reads this
    {
      Artifacts(model, scaler)
    }

    /** Module import: both globals start unset. */
    constructor ()
      ensures Valid() && State() == Artifacts(None, None)
    {
      model := None;
      scaler := None;
    }

    /** `load_model_and_scaler`: returns the exception it raises, if any. */
    method Load(disk: Disk) returns (raised: Option<Exception>)
      requires Valid()
      modifies this
      ensures Valid()
      ensures State() == LoadSpec(old(State()), disk).state
      ensures raised == LoadSpec(old(State()), disk).raised
    {
      raised := None;
      if model.None? {
        if disk.modelFile.None? {
          raised := Some(ModelFileNotFound);
          return;
        }
        model := disk.modelFile;
        if disk.scalerFile.Some? {
          scaler := disk.scalerFile;
        }
      }
    }

    /**
     * `predict(features_list)`: rewrites the caller's list in place and
     * returns the result pair, or raises what the loader raises.
     */
    method Predict(features: array<Value>, disk: Disk, parse: string -> Option<real>) returns (out: Outcome<Pair, Exception>)
      requires Valid()
      modifies this, features
      ensures Valid()
      ensures var r := PredictSpec(old(State()), disk, old(features[..]), parse);
        State() == r.state && features[..] == r.list && out == r.out
    {
      var raised := Load(disk);
      if raised.Some? {
        out := Raised(raised.value);
        return;
      }
      // The loader either raised or set `_model`, so the source's
      // `if _model is None` guard cannot fire here.
      var clf := model.value;
      var err := EncodeInPlace(features, parse);
      if err.Some? {
        out := Returned(Unlabelled(Caught(err.value)));
        return;
      }
      var row := AsVector(features[..]);
      if row.None? {
        out := Returned(Unlabelled(Caught(NotAnArray)));
        return;
      }
      out := Returned(Infer(clf, scaler, row.value));
    }
  }

  /** One statement of `predict` or the request handler, performed on the array. */
  method ApplyInPlace(a: array<Value>, st: Step, parse: string -> Option<real>) returns (err: Option<Exception>)
    modifies a
    ensures ApplyStep(st, old(a[..]), parse).Success? ==>
      err.None? && a[..] == ApplyStep(st, old(a[..]), parse).value
    ensures ApplyStep(st, old(a[..]), parse).Failure? ==>
      err == Some(ApplyStep(st, old(a[..]), parse).error) && a[..] == old(a[..])
  {
    if st.slot >= a.Length {
      return Some(SlotMissing);
    }
    var v: Value;
    match st {
      case Encode(i, f) =>
        var code := Lookup(f, a[i]);
        if code.None? {
          return Some(UnknownLabel(a[i]));
        }
        v := Num(code.value as real);
      case Coerce(i) =>
        var x := ToFloat(a[i], parse);
        if x.None? {
          return Some(NotNumeric(a[i]));
        }
        v := Num(x.value);
    }
    a[st.slot] := v;
    err := None;
  }

  /** Advancing a run by its next statement. */
  lemma RunAdvance(steps: seq<Step>, k: nat, s: seq<Value>, parse: string -> Option<real>)
    requires k < |steps|
    ensures var r := ApplyStep(steps[k], s, parse);
      Run(steps[k..], s, parse) ==
        if r.Failure? then Encoding(s, Some(r.error)) else Run(steps[k + 1..], r.value, parse)
  {
    assert steps[k..][0] == steps[k];
    assert steps[k..][1..] == steps[k + 1..];
  }

  /**
   * Statement `st`, the k-th of a run, performed on the array: the run from
   * statement k on the old contents either stops here with the exception
   * (the array unchanged) or goes on as the run from statement k + 1 on the
   * new contents.
   */
  method Perform(a: array<Value>, st: Step, ghost steps: seq<Step>, ghost k: nat, parse: string -> Option<real>)
    returns (err: Option<Exception>)
    requires k < |steps| && steps[k] == st
    modifies a
    ensures err.Some? ==> a[..] == old(a[..]) && Run(steps[k..], old(a[..]), parse) == Encoding(a[..], err)
    ensures err.None? ==> Run(steps[k..], old(a[..]), parse) == Run(steps[k + 1..], a[..], parse)
  {
    RunAdvance(steps, k, a[..], parse);
    err := ApplyInPlace(a, st, parse);
  }

  /**
   * Lines 64-76 of `predict`: the five table lookups and six conversions,
   * one statement after another, on the caller's list.
   */
  method EncodeInPlace(a: array<Value>, parse: string -> Option<real>) returns (err: Option<Exception>)
    modifies a
    ensures Encoding(a[..], err) == Run(FeatureSteps, old(a[..]), parse)
  {
    ghost var steps := FeatureSteps;
    assert steps[0..] == steps;
    err := Perform(a, Encode(1, Sex), steps, 0, parse);
    if err.Some? { return; }
    err := Perform(a, Encode(2, ChestPainType), steps, 1, parse);
    if err.Some? { return; }
    err := Perform(a, Encode(6, RestingECG), steps, 2, parse);
    if err.Some? { return; }
    err := Perform(a, Encode(8, ExerciseAngina), steps, 3, parse);
    if err.Some? { return; }
    err := Perform(a, Encode(10, StSlope), steps, 4, parse);
    if err.Some? { return; }
    err := Perform(a, Coerce(0), steps, 5, parse);
    if err.Some? { return; }
    err := Perform(a, Coerce(3), steps, 6, parse);
    if err.Some? { return; }
    err := Perform(a, Coerce(4), steps, 7, parse);
    if err.Some? { return; }
    err := Perform(a, Coerce(5), steps, 8, parse);
    if err.Some? { return; }
    err := Perform(a, Coerce(7), steps, 9, parse);
    if err.Some? { return; }
    err := Perform(a, Coerce(9), steps, 10, parse);
    if err.Some? { return; }
    assert steps[11..] == [];
  }
}
