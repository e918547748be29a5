/** The survival predictor around the trained regressor: it encodes and aligns
    the feature columns, clamps the prediction, grades it, and falls back to a
    stage-based heuristic when no model is loaded or the model path fails.
    The regressor and the label encoders are parameters. */
module SurvivalPredictor {
  import opened Wrappers
  import opened SurvivalFeatures

  /** `max(lo, min(hi, x))`. */
  function Clamp(x: real, lo: real, hi: real): (y: real)
    requires lo <= hi
    ensures lo <= y <= hi
    ensures lo <= x <= hi ==> y == x
    ensures x < lo ==> y == lo
    ensures hi < x ==> y == hi
  {
    if x < lo then lo else if hi < x then hi else x
  }

  lemma ClampMonotonic(x: real, y: real, lo: real, hi: real)
    requires lo <= hi && x <= y
    ensures Clamp(x, lo, hi) <= Clamp(y, lo, hi)
  {
  }

  /** The `confidence` of a prediction. */
  datatype Band = Low | Medium | High
  {
    function Name(): string
    {
      match this
      case Low => "low"
      case Medium => "medium"
      case High => "high"
    }

    function Rank(): nat
    {
      match this
      case Low => 0
      case Medium => 1
      case High => 2
    }
  }

  /** `'high' if p > 70 else 'medium' if p > 50 else 'low'`. */
  function BandOf(p: real): (b: Band)
    ensures b == High <==> p > 70.0
    ensures b == Medium <==> 50.0 < p <= 70.0
    ensures b == Low <==> p <= 50.0
  {
    if p > 70.0 then High else if p > 50.0 then Medium else Low
  }

  lemma BandMonotonic(p: real, q: real)
    requires p <= q
    ensures BandOf(p).Rank() <= BandOf(q).Rank()
  {
  }

  /** The four tiers of `_get_survival_message`, lowest first. */
  datatype Outlook = Intensive | Moderate | Good | Excellent
  {
    function Message(): string
    {
      match this
      case Excellent => "Excellent prognosis with current treatment approaches"
      case Good => "Good prognosis with comprehensive treatment plan"
      case Moderate => "Moderate prognosis - aggressive treatment recommended"
      case Intensive => "Requires intensive treatment and close monitoring"
    }

    function Rank(): nat
    {
      match this
      case Intensive => 0
      case Moderate => 1
      case Good => 2
      case Excellent => 3
    }
  }

  function OutlookFor(p: real): (o: Outlook)
    ensures o == Excellent <==> p >= 80.0
    ensures o == Good <==> 60.0 <= p < 80.0
    ensures o == Moderate <==> 40.0 <= p < 60.0
    ensures o == Intensive <==> p < 40.0
  {
    if p >= 80.0 then Excellent
    else if p >= 60.0 then Good
    else if p >= 40.0 then Moderate
    else Intensive
  }

  /** `_get_survival_message`. */
  function SurvivalMessage(p: real): string
  {
    OutlookFor(p).Message()
  }

  /** The tier never drops as the survival figure rises. */
  lemma OutlookMonotonic(p: real, q: real)
    requires p <= q
    ensures OutlookFor(p).Rank() <= OutlookFor(q).Rank()
  {
  }

  /** The feature columns as `predict_survival` receives them. */
  type Patient = map<Feature, string>

  /** The result dictionary of `predict_survival`. The percentage is kept
      unrounded; the band and the message are computed from it as the
      source computes them from the unrounded value. */
  datatype SurvivalPrediction = SurvivalPrediction(
    percentage: real,
    confidence: Band,
    message: string,
    isMock: bool)

  /** `stage_adjustments.get(stage, 0)`. */
  function StageAdjustment(stage: string): (a: int)
    ensures a in {15, 0, -20, -40}
    ensures stage == "Stage I" ==> a == 15
    ensures stage == "Stage II" ==> a == 0
    ensures stage == "Stage III" ==> a == -20
    ensures stage == "Stage IV" ==> a == -40
    ensures stage !in {"Stage I", "Stage II", "Stage III", "Stage IV"} ==> a == 0
  {
    if stage == "Stage I" then 15
    else if stage == "Stage II" then 0
    else if stage == "Stage III" then -20
    else if stage == "Stage IV" then -40
    else 0
  }

  /** The stage the mock reads: the mapper's stage column, 'Unknown' when missing. */
  function MockStage(patient: Patient): string
  {
    if Stage in patient then patient[Stage] else "Unknown"
  }

  /** `_mock_survival_prediction`, with `random.uniform(-5, 5)` as `noise`. */
  function MockSurvival(patient: Patient, noise: real): (s: SurvivalPrediction)
    requires -5.0 <= noise <= 5.0
    ensures 10.0 <= s.percentage <= 95.0
    ensures s.percentage == Clamp(75.0 + StageAdjustment(MockStage(patient)) as real + noise, 10.0, 95.0)
    ensures s.confidence == Medium && s.isMock
    ensures s.message == SurvivalMessage(s.percentage)
  {
    var raw := 75.0 + StageAdjustment(MockStage(patient)) as real + noise;
    var p := Clamp(raw, 10.0, 95.0);
    SurvivalPrediction(p, Medium, SurvivalMessage(p), true)
  }

  /** One cell of the one-row frame handed to the regressor. */
  datatype Cell = TextCell(text: string) | Num(num: int)

  /** A fitted label encoder: the code of each class it has seen. */
  datatype Encoder = Encoder(codes: map<string, int>)

  /** `encoder.transform([v])[0]`, retried with 'Unknown' when `v` was never
      seen; None when 'Unknown' was not seen either (the second error escapes). */
  function Transform(e: Encoder, v: string): (code: Option<int>)
    ensures v in e.codes ==> code == Some(e.codes[v])
    ensures v !in e.codes && "Unknown" in e.codes ==> code == Some(e.codes["Unknown"])
    ensures code.None? <==> v !in e.codes && "Unknown" !in e.codes
  {
    if v in e.codes then Some(e.codes[v])
    else if "Unknown" in e.codes then Some(e.codes["Unknown"])
    else None
  }

  /** Column `c` holding `v` survives the encoding loop: it has no encoder,
      or its encoder can encode `v`. */
  predicate ColumnEncodes<K>(encoders: map<K, Encoder>, c: K, v: string)
  {
    c !in encoders || v in encoders[c].codes || "Unknown" in encoders[c].codes
  }

  /** Some column of the patient has an encoder that cannot encode its value. */
  predicate EncodingFails<K>(patient: map<K, string>, encoders: map<K, Encoder>)
  {
    exists c :: c in patient && !ColumnEncodes(encoders, c, patient[c])
  }

  /** The cell a patient column holds after the encoding loop. */
  function EncodedCell<K>(patient: map<K, string>, encoders: map<K, Encoder>, c: K): Cell
    requires c in patient
    requires ColumnEncodes(encoders, c, patient[c])
  {
    if c in encoders then Num(Transform(encoders[c], patient[c]).value) else TextCell(patient[c])
  }

  /** The row the regressor receives: the patient's columns encoded, the
      missing feature columns filled with 0, in the trained column order. */
  function PreparedRow<K>(patient: map<K, string>, encoders: map<K, Encoder>, columns: seq<K>): (row: Option<seq<Cell>>)
    ensures row.None? <==> EncodingFails(patient, encoders)
    ensures row.Some? ==> |row.value| == |columns|
  {
    if EncodingFails(patient, encoders) then None
    else Some(seq(|columns|, k requires 0 <= k < |columns| =>
      if columns[k] in patient then EncodedCell(patient, encoders, columns[k]) else Num(0)))
  }

  /** What each column of the prepared row holds. */
  lemma PreparedRowColumns<K>(patient: map<K, string>, encoders: map<K, Encoder>, columns: seq<K>, k: int)
    requires PreparedRow(patient, encoders, columns).Some?
    requires 0 <= k < |columns|
    ensures var cell := PreparedRow(patient, encoders, columns).value[k];
      var c := columns[k];
      && (c !in patient ==> cell == Num(0))
      && (c in patient && c !in encoders ==> cell == TextCell(patient[c]))
      && (c in patient && c in encoders && patient[c] in encoders[c].codes ==>
            cell == Num(encoders[c].codes[patient[c]]))
      && (c in patient && c in encoders && patient[c] !in encoders[c].codes ==>
            cell == Num(encoders[c].codes["Unknown"]))
  {
  }

  /** The frame after the encoding loop, when no column fails. */
  function EncodedFrame<K>(patient: map<K, string>, encoders: map<K, Encoder>): (frame: map<K, Cell>)
    requires !EncodingFails(patient, encoders)
    ensures frame.Keys == patient.Keys
  {
    map c | c in patient :: EncodedCell(patient, encoders, c)
  }

  /** The frame midway through the encoding loop: the pending columns still
      hold their raw text, every other column its encoded cell. */
  ghost predicate EncodedExcept<K>(patient: map<K, string>, encoders: map<K, Encoder>,
                                   frame: map<K, Cell>, pending: set<K>)
  {
    && pending <= patient.Keys
    && frame.Keys == patient.Keys
    && (forall c :: c in patient && c !in pending ==> ColumnEncodes(encoders, c, patient[c]))
    && (forall c :: c in frame ==>
          frame[c] == if c in pending then TextCell(patient[c]) else EncodedCell(patient, encoders, c))
  }

  /** Encoding one more pending column keeps the loop's picture of the frame. */
  lemma EncodeStep<K>(patient: map<K, string>, encoders: map<K, Encoder>,
                      frame: map<K, Cell>, pending: set<K>, c: K)
    requires EncodedExcept(patient, encoders, frame, pending)
    requires c in pending
    requires ColumnEncodes(encoders, c, patient[c])
    ensures EncodedExcept(patient, encoders,
      if c in encoders then frame[c := EncodedCell(patient, encoders, c)] else frame, pending - {c})
  {
  }

  /** With nothing pending the frame is the fully encoded one. */
  lemma EncodeDone<K>(patient: map<K, string>, encoders: map<K, Encoder>, frame: map<K, Cell>)
    requires EncodedExcept(patient, encoders, frame, {})
    ensures !EncodingFails(patient, encoders)
    ensures frame == EncodedFrame(patient, encoders)
  {
  }

  /** The first column loop of `predict_survival`: the frame starts as the
      patient's raw values and every column that has an encoder is rewritten
      in place with its code; the first value that cannot be encoded aborts. */
  method EncodeColumns<K>(patient: map<K, string>, encoders: map<K, Encoder>)
    returns (result: Option<map<K, Cell>>)
    ensures result.None? <==> EncodingFails(patient, encoders)
    ensures result.Some? ==> result.value == EncodedFrame(patient, encoders)
  {
    var frame: map<K, Cell> := map c | c in patient :: TextCell(patient[c]);
    var pending := patient.Keys;
    while pending != {}
      invariant EncodedExcept(patient, encoders, frame, pending)
      decreases |pending|
    {
      var c :| c in pending;
      if c in encoders {
        var code := Transform(encoders[c], patient[c]);
        if code.None? {
          assert c in patient && !ColumnEncodes(encoders, c, patient[c]);
          return None;
        }
        EncodeStep(patient, encoders, frame, pending, c);
        frame := frame[c := Num(code.value)];
      } else {
        EncodeStep(patient, encoders, frame, pending, c);
      }
      pending := pending - {c};
    }
    EncodeDone(patient, encoders, frame);
    return Some(frame);
  }

  /** The second column loop: every expected column the frame lacks is added as 0. */
  method FillMissing<K>(frame: map<K, Cell>, columns: seq<K>) returns (filled: map<K, Cell>)
    ensures frame.Keys <= filled.Keys
    ensures forall k :: 0 <= k < |columns| ==> columns[k] in filled
    ensures forall c :: c in filled ==> filled[c] == if c in frame then frame[c] else Num(0)
    ensures forall c :: c in filled ==> c in frame || c in columns
  {
    filled := frame;
    var i := 0;
    while i < |columns|
      invariant 0 <= i <= |columns|
      invariant frame.Keys <= filled.Keys
      invariant forall c :: c in filled ==> c in frame || c in columns[..i]
      invariant forall k :: 0 <= k < i ==> columns[k] in filled
      invariant forall c :: c in filled ==> filled[c] == if c in frame then frame[c] else Num(0)
    {
      if columns[i] !in filled {
        filled := filled[columns[i] := Num(0)];
      }
      i := i + 1;
    }
  }

  /** The two column loops of `predict_survival` and the reordering
      `patient_df[feature_columns]`. */
  method EncodeAndAlign<K>(patient: map<K, string>, encoders: map<K, Encoder>, columns: seq<K>)
    returns (row: Option<seq<Cell>>)
    ensures row == PreparedRow(patient, encoders, columns)
  {
    var encoded := EncodeColumns(patient, encoders);
    if encoded.None? {
      return None;
    }
    var frame := FillMissing(encoded.value, columns);
    row := Some(seq(|columns|, k requires 0 <= k < |columns| => frame[columns[k]]));
    assert row.value == PreparedRow(patient, encoders, columns).value;
  }

  /** What `joblib` loaded: the regressor (None when `predict` raises), the
      label encoders by column, and the trained column order. */
  datatype ModelData = ModelData(
    model: seq<Cell> -> Option<real>,
    labelEncoders: map<Feature, Encoder>,
    featureColumns: seq<Feature>)

  /** A predictor holds the loaded model, or None when loading failed. */
  datatype Predictor = Predictor(modelData: Option<ModelData>)

  /** The model path yields no value: no model, an encoding error, or the
      regressor raising. */
  predicate FallsBackToMock(p: Predictor, patient: Patient)
  {
    || p.modelData.None?
    || var md := p.modelData.value;
       var row := PreparedRow(patient, md.labelEncoders, md.featureColumns);
       row.None? || md.model(row.value).None?
  }

  /** `predict_survival` as a function of the predictor, the patient and the
      noise the mock would draw. */
  function SurvivalResult(p: Predictor, patient: Patient, noise: real): (s: SurvivalPrediction)
    requires -5.0 <= noise <= 5.0
    ensures 0.0 <= s.percentage <= 100.0
    ensures s.isMock <==> FallsBackToMock(p, patient)
    ensures s.isMock ==> s == MockSurvival(patient, noise)
    ensures s.message == SurvivalMessage(s.percentage)
    ensures !s.isMock ==> s.confidence == BandOf(s.percentage)
    ensures !s.isMock ==>
      var md := p.modelData.value;
      s.percentage == Clamp(md.model(PreparedRow(patient, md.labelEncoders, md.featureColumns).value).value, 0.0, 100.0)
  {
    if FallsBackToMock(p, patient) then MockSurvival(patient, noise)
    else
      var md := p.modelData.value;
      var predicted := md.model(PreparedRow(patient, md.labelEncoders, md.featureColumns).value).value;
      var pct := Clamp(predicted, 0.0, 100.0);
      SurvivalPrediction(pct, BandOf(pct), SurvivalMessage(pct), false)
  }

  /** `predict_survival`: runs the column loops, then the regressor, falling
      back to the mock on any failure. */
  method PredictSurvival(p: Predictor, patient: Patient, noise: real) returns (s: SurvivalPrediction)
    requires -5.0 <= noise <= 5.0
    ensures s == SurvivalResult(p, patient, noise)
  {
    if p.modelData.None? {
      return MockSurvival(patient, noise);
    }
    var md := p.modelData.value;
    var row := EncodeAndAlign(patient, md.labelEncoders, md.featureColumns);
    if row.None? {
      return MockSurvival(patient, noise);
    }
    var predicted := md.model(row.value);
    if predicted.None? {
      return MockSurvival(patient, noise);
    }
    var pct := Clamp(predicted.value, 0.0, 100.0);
    s := SurvivalPrediction(pct, BandOf(pct), SurvivalMessage(pct), false);
  }

  /** The adjustments lie in [-40, 15] and the noise in [-5, 5], so the
      mock's clamp to [10, 95] never applies: its figure is exactly
      75 + adjustment + noise, between 30 and 95. */
  lemma MockNeverClamps(patient: Patient, noise: real)
    requires -5.0 <= noise <= 5.0
    ensures MockSurvival(patient, noise).percentage == 75.0 + StageAdjustment(MockStage(patient)) as real + noise
    ensures 30.0 <= MockSurvival(patient, noise).percentage
  {
  }

  /** A Stage II patient gets the mock's base figure plus the noise. */
  lemma StageTwoMock(patient: Patient, noise: real)
    requires MockStage(patient) == "Stage II"
    requires -5.0 <= noise <= 5.0
    ensures MockSurvival(patient, noise).percentage == 75.0 + noise
  {
    assert StageAdjustment("Stage II") == 0;
  }

  /** A 'Not sure' stage reaches the mock as Stage II and adjusts nothing. */
  lemma NotSureStageNoAdjustment(r: Questionnaire.Responses, noise: real)
    requires Questionnaire.Answered(r, "cancer_stage", "Not sure")
    requires -5.0 <= noise <= 5.0
    ensures var patient := MapQuestionnaireToSurvivalFeatures(r);
      && MockStage(patient) == "Stage II"
      && MockSurvival(patient, noise).percentage == 75.0 + noise
  {
    var patient := MapQuestionnaireToSurvivalFeatures(r);
    NotSureReplaced(r, Stage);
    StageTwoMock(patient, noise);
  }
}
