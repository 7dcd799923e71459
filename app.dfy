/**
  The pure logic of BiasGuard's web dashboard (app.py): validation of an uploaded hiring table,
  the session-state slots with the lazily built language detector, and the box style chosen for
  a bias level. Widgets, layout and rendering are not modelled.
 */
module App {
  import opened Wrappers
  import Text
  import Config
  import LanguageService
  import FairnessEngine
  import Visualization

  // ---------------------------------------------------------------------------------------
  // Upload validation

  /** One cell of an uploaded CSV as pandas reads it: a number, a string or a missing value. */
  datatype Cell = CellNumber(n: real) | CellString(s: string) | CellMissing

  /** An uploaded table: its column names and its rows. */
  datatype Frame = Frame(columns: seq<string>, rows: seq<map<string, Cell>>)

  const RequiredColumns: seq<string> := ["gender", "hired"]
  const ValidGenders: set<string> := {"male", "female", "Male", "Female"}
  const MinRows: nat := 50

  const GenderMessage: string := "Gender column must contain only 'male' or 'female'"
  const HiredMessage: string := "Hired column must contain only 0 or 1"
  const SizeMessage: string := "Dataset must contain at least 50 records for statistical validity"

  function CellAt(row: map<string, Cell>, column: string): Cell {
    if column in row then row[column] else CellMissing
  }

  /** `[col for col in required_cols if col not in df.columns]` */
  function MissingColumns(df: Frame): (missing: seq<string>)
    ensures forall c :: c in missing <==> c in RequiredColumns && c !in df.columns
    ensures |missing| <= 2 && (|missing| == 2 ==> missing == RequiredColumns)
  {
    (if "gender" in df.columns then [] else ["gender"]) + (if "hired" in df.columns then [] else ["hired"])
  }

  /** `', '.join(items)` */
  function Join(items: seq<string>, separator: string): string {
    if items == [] then ""
    else if |items| == 1 then items[0]
    else items[0] + separator + Join(items[1..], separator)
  }

  predicate GenderAccepted(c: Cell) {
    c.CellString? && c.s in ValidGenders
  }

  predicate HiredAccepted(c: Cell) {
    c.CellNumber? && (c.n == 0.0 || c.n == 1.0)
  }

  /** `df['gender'].isin(valid_genders).all()` */
  predicate AllGendersAccepted(df: Frame) {
    forall i :: 0 <= i < |df.rows| ==> GenderAccepted(CellAt(df.rows[i], "gender"))
  }

  /** `df['hired'].isin([0, 1]).all()` */
  predicate AllHiredAccepted(df: Frame) {
    forall i :: 0 <= i < |df.rows| ==> HiredAccepted(CellAt(df.rows[i], "hired"))
  }

  /** `(is_valid, error_message)` */
  datatype Validation = Validation(isValid: bool, message: Option<string>)

  /**
    `validate_hiring_csv`: valid exactly when all four checks pass; otherwise the message of
    the first failing check, in the order columns, gender, hired, size.
   */
  function ValidateHiringCsv(df: Frame): (v: Validation)
    ensures v.isValid <==> v.message == None
    ensures v.isValid <==>
      MissingColumns(df) == [] && AllGendersAccepted(df) && AllHiredAccepted(df) && |df.rows| >= MinRows
    ensures MissingColumns(df) != [] ==>
      v.message == Some("Missing required columns: " + Join(MissingColumns(df), ", "))
    ensures MissingColumns(df) == [] && !AllGendersAccepted(df) ==> v.message == Some(GenderMessage)
    ensures MissingColumns(df) == [] && AllGendersAccepted(df) && !AllHiredAccepted(df) ==> v.message == Some(HiredMessage)
    ensures MissingColumns(df) == [] && AllGendersAccepted(df) && AllHiredAccepted(df) && |df.rows| < MinRows ==>
      v.message == Some(SizeMessage)
  {
    var missing := MissingColumns(df);
    if missing != [] then
      Validation(false, Some("Missing required columns: " + Join(missing, ", ")))
    else if !AllGendersAccepted(df) then
      Validation(false, Some(GenderMessage))
    else if !AllHiredAccepted(df) then
      Validation(false, Some(HiredMessage))
    else if |df.rows| < MinRows then
      Validation(false, Some(SizeMessage))
    else
      Validation(true, None)
  }

  /** The missing-column message names both columns in the order gender, hired. */
  lemma BothColumnsMissingMessage(df: Frame)
    requires "gender" !in df.columns && "hired" !in df.columns
    ensures ValidateHiringCsv(df).message == Some("Missing required columns: gender, hired")
  {
    assert MissingColumns(df) == ["gender", "hired"];
    assert Join(["hired"], ", ") == "hired";
    assert Join(["gender", "hired"], ", ") == "gender" + ", " + Join(["hired"], ", ");
    assert Join(MissingColumns(df), ", ") == "gender, hired";
    assert "Missing required columns: " + "gender, hired" == "Missing required columns: gender, hired";
  }

  /** A gender spelled in capitals, such as "MALE", fails validation. */
  lemma CapitalisedGenderRejected(df: Frame, i: nat)
    requires i < |df.rows| && CellAt(df.rows[i], "gender") == CellString("MALE")
    ensures !ValidateHiringCsv(df).isValid
  {
    assert !GenderAccepted(CellAt(df.rows[i], "gender"));
  }

  /** `df['gender'] = df['gender'].str.lower()` followed by the calculator's view of a row. */
  function HiringRow(row: map<string, Cell>): FairnessEngine.Row {
    var g := CellAt(row, "gender");
    var h := CellAt(row, "hired");
    FairnessEngine.Row(if g.CellString? then Text.Lower(g.s) else "", if h.CellNumber? then h.n else 0.0)
  }

  function HiringRows(df: Frame): (rows: seq<FairnessEngine.Row>)
    ensures |rows| == |df.rows|
    ensures forall i :: 0 <= i < |df.rows| ==> rows[i] == HiringRow(df.rows[i])
  {
    seq(|df.rows|, i requires 0 <= i < |df.rows| => HiringRow(df.rows[i]))
  }

  lemma LowerAcceptedGender(s: string)
    requires s in ValidGenders
    ensures Text.Lower(s) == "male" || Text.Lower(s) == "female"
  {
    if s == "male" || s == "Male" {
      assert Text.Lower(s) == "male";
    } else {
      assert Text.Lower(s) == "female";
    }
  }

  /**
    A table that passes validation, once its genders are lower-cased, loses no row in the
    calculator's split: every row is "male" or "female", outcomes are 0/1, and the two groups
    together hold all of its (at least 50) rows.
   */
  lemma ValidatedTableFeedsCalculator(df: Frame)
    requires ValidateHiringCsv(df).isValid
    ensures var rows := HiringRows(df);
      && (forall i :: 0 <= i < |rows| ==> rows[i].gender == "male" || rows[i].gender == "female")
      && FairnessEngine.BinaryOutcomes(rows)
      && |FairnessEngine.Group(rows, "male")| + |FairnessEngine.Group(rows, "female")| == |df.rows|
      && |df.rows| >= MinRows
  {
    var rows := HiringRows(df);
    forall i | 0 <= i < |rows|
      ensures rows[i].gender == "male" || rows[i].gender == "female"
    {
      assert GenderAccepted(CellAt(df.rows[i], "gender"));
      LowerAcceptedGender(CellAt(df.rows[i], "gender").s);
    }
    assert forall i :: 0 <= i < |rows| ==> HiredAccepted(CellAt(df.rows[i], "hired"));
    FairnessEngine.PartitionComplete(rows);
  }

  /**
    The validator never asks for both genders: a table of at least 50 "male" rows with 0/1
    outcomes is accepted, yet its female group is empty, so the rates are not `Computable`.
   */
  lemma OneGenderTableAccepted(df: Frame)
    requires "gender" in df.columns && "hired" in df.columns && |df.rows| >= MinRows
    requires forall i :: 0 <= i < |df.rows| ==>
      CellAt(df.rows[i], "gender") == CellString("male") && HiredAccepted(CellAt(df.rows[i], "hired"))
    ensures ValidateHiringCsv(df).isValid
    ensures |FairnessEngine.Group(HiringRows(df), "female")| == 0
    ensures !FairnessEngine.Computable(HiringRows(df))
  {
    assert AllGendersAccepted(df) by {
      forall i | 0 <= i < |df.rows| ensures GenderAccepted(CellAt(df.rows[i], "gender")) {
        assert "male" in ValidGenders;
      }
    }
    var rows := HiringRows(df);
    assert Text.Lower("male") == "male";
    assert forall i :: 0 <= i < |rows| ==> rows[i].gender == "male";
    FairnessEngine.GroupOfAbsent(rows, "female");
  }

  // ---------------------------------------------------------------------------------------
  // Session state

  /**
    A value held in `st.session_state`: None, a message, or the detector. The analysis results
    and the upload path that the pages store later are not modelled.
   */
  datatype Value =
    | NoneValue
    | StringValue(s: string)
    | DetectorValue(detector: LanguageService.AzureLanguageBiasDetector)

  const SessionKeys: set<string> := {
    "fairness_results", "language_results", "uploaded_data_path",
    "language_detector", "language_detector_error", "azure_ml_workspace_name"}

  type Slots = map<string, Value>

  /** `if key not in st.session_state: st.session_state.key = None` */
  function WithDefault(m: Slots, key: string): Slots {
    if key in m then m else m[key := NoneValue]
  }

  /**
    The slots after `init_session_state`: each missing key is set to None and present keys keep
    their values, except that a missing "language_detector" also resets "language_detector_error"
    (and a present one leaves that slot alone, even when it is absent).
   */
  function InitialSlots(m: Slots): Slots {
    var m1 := WithDefault(WithDefault(WithDefault(m, "fairness_results"), "language_results"), "uploaded_data_path");
    var m2 := if "language_detector" in m1 then m1
      else m1["language_detector" := NoneValue]["language_detector_error" := NoneValue];
    WithDefault(m2, "azure_ml_workspace_name")
  }

  ghost predicate Initialized(m: Slots) {
    forall k :: k in SessionKeys ==> k in m
  }

  /** The two detector slots are only ever created together. */
  predicate DetectorSlotsPaired(m: Slots) {
    "language_detector" in m ==> "language_detector_error" in m
  }

  /** Initialisation adds only session keys, sets each added one to None and keeps every other value. */
  lemma InitialSlotsKeepsValues(m: Slots)
    ensures m.Keys <= InitialSlots(m).Keys <= m.Keys + SessionKeys
    ensures forall k :: k in InitialSlots(m) && k !in m ==> InitialSlots(m)[k] == NoneValue
    ensures forall k :: k in m && k != "language_detector_error" ==> InitialSlots(m)[k] == m[k]
    ensures "language_detector" in m && "language_detector_error" in m ==>
      InitialSlots(m)["language_detector_error"] == m["language_detector_error"]
  {
  }

  /** A missing detector slot resets the error slot too, whatever it held. */
  lemma InitialSlotsResetError(m: Slots)
    requires "language_detector" !in m
    ensures InitialSlots(m)["language_detector"] == NoneValue
    ensures InitialSlots(m)["language_detector_error"] == NoneValue
  {
  }

  /**
    Every session key is present afterwards when the detector slots were paired; a detector slot
    without its error slot stays that way.
   */
  lemma InitialSlotsComplete(m: Slots)
    ensures DetectorSlotsPaired(m) ==> Initialized(InitialSlots(m))
    ensures DetectorSlotsPaired(InitialSlots(m)) <==> DetectorSlotsPaired(m)
  {
    var r := InitialSlots(m);
    assert "fairness_results" in r && "language_results" in r && "uploaded_data_path" in r;
    assert "language_detector" in r && "azure_ml_workspace_name" in r;
  }

  /** Running initialisation on every page rerun is harmless: a second run changes nothing. */
  lemma InitialSlotsIdempotent(m: Slots)
    ensures InitialSlots(InitialSlots(m)) == InitialSlots(m)
  {
    var r := InitialSlots(m);
    assert "fairness_results" in r && "language_results" in r && "uploaded_data_path" in r;
    assert "language_detector" in r && "azure_ml_workspace_name" in r;
  }

  /** `st.session_state`: a dictionary that survives reruns of the page script. */
  class SessionState {
    var slots: map<string, Value>

    constructor ()
      ensures slots == map[]
    {
      slots := map[];
    }

    /** The detector slots have not been tried yet. */
    ghost predicate Untried()
      reads this
      requires "language_detector" in slots && "language_detector_error" in slots
    {
      slots["language_detector"] == NoneValue && slots["language_detector_error"] == NoneValue
    }

    /** `init_session_state`: fills in the missing slots as `InitialSlots` describes. */
    method InitSessionState()
      modifies this
      ensures slots == InitialSlots(old(slots))
    {
      if "fairness_results" !in slots {
        slots := slots["fairness_results" := NoneValue];
      }
      if "language_results" !in slots {
        slots := slots["language_results" := NoneValue];
      }
      if "uploaded_data_path" !in slots {
        slots := slots["uploaded_data_path" := NoneValue];
      }
      if "language_detector" !in slots {
        slots := slots["language_detector" := NoneValue];
        slots := slots["language_detector_error" := NoneValue];
      }
      if "azure_ml_workspace_name" !in slots {
        slots := slots["azure_ml_workspace_name" := NoneValue];
      }
    }

    /**
      `get_language_detector`: a three-state machine over the detector and error slots.
      Untried, it builds the detector or, when the credentials are missing, records the
      constructor's message; afterwards it never tries again and just returns the slot.
     */
    method GetLanguageDetector(endpoint: Option<string>, key: Option<string>, client: string -> LanguageService.Sentiment)
      returns (detector: Value)
      requires "language_detector" in slots && "language_detector_error" in slots
      modifies this
      ensures "language_detector" in slots && "language_detector_error" in slots
      ensures detector == slots["language_detector"]
      ensures !old(Untried()) ==> slots == old(slots)
      ensures old(Untried()) && Config.Truthy(endpoint) && Config.Truthy(key) ==>
        && detector.DetectorValue? && fresh(detector.detector)
        && detector.detector.biasKeywords == Config.BiasKeywords
        && detector.detector.replacements == Config.Replacements
        && detector.detector.endpoint == endpoint.value && detector.detector.key == key.value
        && detector.detector.client == client
        && slots == old(slots)["language_detector" := detector]
      ensures old(Untried()) && !(Config.Truthy(endpoint) && Config.Truthy(key)) ==>
        && detector == NoneValue
        && slots == old(slots)["language_detector_error" := StringValue(LanguageService.CredentialsMissing)]
    {
      if slots["language_detector"] == NoneValue && slots["language_detector_error"] == NoneValue {
        if Config.Truthy(endpoint) && Config.Truthy(key) {
          var d := new LanguageService.AzureLanguageBiasDetector(endpoint, key, client);
          slots := slots["language_detector" := DetectorValue(d)];
        } else {
          slots := slots["language_detector_error" := StringValue(LanguageService.CredentialsMissing)];
        }
      }
      detector := slots["language_detector"];
    }
  }

  // ---------------------------------------------------------------------------------------
  // Result styling

  /** The box style of the analysis result panel for a bias level. */
  function BoxClass(level: string): (box: string)
    ensures box == "error-box" <==> level == "CRITICAL" || level == "HIGH"
    ensures box == "warning-box" <==> level == "MEDIUM"
    ensures box == "success-box" <==> level != "CRITICAL" && level != "HIGH" && level != "MEDIUM"
  {
    if level == "CRITICAL" || level == "HIGH" then "error-box"
    else if level == "MEDIUM" then "warning-box"
    else "success-box"
  }

  /**
    The result box and the score bar agree on every score the scanner can produce: error-box
    with a danger bar from 50, warning-box with a warning bar from 25, success otherwise.
   */
  lemma BoxAgreesWithBarColor(score: int)
    ensures BoxClass(LanguageService.LevelOf(score)) == "error-box" <==> Visualization.BarColor(score) == Config.DangerColor
    ensures BoxClass(LanguageService.LevelOf(score)) == "warning-box" <==> Visualization.BarColor(score) == Config.WarningColor
    ensures BoxClass(LanguageService.LevelOf(score)) == "success-box" <==> Visualization.BarColor(score) == Config.SuccessColor
  {
  }
}
