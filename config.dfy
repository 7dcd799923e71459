/**
  BiasGuard's central configuration (config.py): the bias taxonomy, the replacement table,
  the fairness thresholds, the colour constants and the credential predicates. Values that the
  source reads from the process environment are fields of `Environment`.
 */
module Config {
  import opened Wrappers
  import Text

  /** One taxonomy entry of `BIAS_KEYWORDS`: a category name and its terms, severity, description. */
  datatype Category = Category(name: string, terms: seq<string>, severity: string, description: string)

  /** `BIAS_KEYWORDS`, in the dictionary's insertion order. */
  const BiasKeywords: seq<Category> := [
    Category("age",
      ["young", "old", "energetic", "mature", "recent graduate",
       "digital native", "experienced", "senior", "junior",
       "fresh", "seasoned"],
      "high", "Age-related discriminatory language"),
    Category("gender",
      ["rockstar", "ninja", "guru", "aggressive", "dominant",
       "competitive", "strong", "ambitious", "assertive", "chairman"],
      "high", "Gender-coded language (masculine-coded terms)"),
    Category("origin",
      ["native", "local", "domestic", "foreign", "immigrant"],
      "medium", "National origin bias"),
    Category("physical",
      ["fit", "athletic", "healthy", "active", "able-bodied"],
      "medium", "Physical ability bias (ableist language)"),
    Category("cultural",
      ["culture fit", "team player", "work hard play hard",
       "family-like", "fast-paced"],
      "low", "Cultural fit bias (can exclude diverse candidates)")
  ]

  /** `REPLACEMENTS`: neutral alternatives, keyed by the exact taxonomy term. */
  const Replacements: map<string, string> := map[
    "young" := "adaptable",
    "old" := "experienced",
    "energetic" := "motivated",
    "rockstar" := "skilled professional",
    "ninja" := "expert",
    "guru" := "specialist",
    "aggressive" := "proactive",
    "dominant" := "confident",
    "competitive" := "driven",
    "native" := "fluent",
    "recent graduate" := "early-career professional",
    "digital native" := "technology-proficient",
    "culture fit" := "values alignment"
  ]

  /** `BIAS_THRESHOLDS` */
  const BiasThresholds: map<string, real> := map[
    "demographic_parity" := 0.2,
    "equalized_odds" := 0.2,
    "eeoc_80_percent" := 0.8,
    "selection_rate_diff" := 0.15
  ]

  /** The three `COLORS` entries the charts use to grade severity. */
  const SuccessColor: string := "#107C10"
  const WarningColor: string := "#FFB900"
  const DangerColor: string := "#D13438"

  /** The settings config.py reads with `os.getenv` (None when unset). */
  datatype Environment = Environment(
    languageEndpoint: Option<string>,
    languageKey: Option<string>,
    subscriptionId: Option<string>,
    resourceGroup: Option<string>,
    mlWorkspace: Option<string>,
    demoMode: Option<string>)

  /** Python truthiness of an optional string: set and non-empty. */
  predicate Truthy(v: Option<string>) {
    v.Some? && v.value != ""
  }

  /** `DEMO_MODE`: the variable, defaulting to "true", lower-cased and compared with "true". */
  function DemoMode(env: Environment): (demo: bool)
    ensures demo <==> env.demoMode == None || Text.EqualIgnoringCase(env.demoMode.value, "true")
  {
    var setting := env.demoMode.GetOr("true");
    Text.LowerOfLowerCase("true");
    Text.LowerEqualIff(setting, "true");
    Text.Lower(setting) == "true"
  }

  const LanguageCredentialsMissing: string :=
    "Azure Language Service credentials not found.\nSet AZURE_LANGUAGE_ENDPOINT and AZURE_LANGUAGE_KEY in .env"

  const MlCredentialsMissing: string :=
    "Azure ML credentials not found.\nSet AZURE_SUBSCRIPTION_ID, AZURE_RESOURCE_GROUP, and AZURE_ML_WORKSPACE in .env"

  /** `validate_azure_credentials`: True, or the ValueError it raises. */
  function ValidateAzureCredentials(env: Environment): (r: Result<bool>)
    ensures r.Ok? <==> Truthy(env.languageEndpoint) && Truthy(env.languageKey)
    ensures r.Ok? ==> r.value
    ensures r.Err? ==> r.message == LanguageCredentialsMissing
  {
    if !Truthy(env.languageEndpoint) || !Truthy(env.languageKey) then
      Err(LanguageCredentialsMissing)
    else
      Ok(true)
  }

  predicate MlSettingsPresent(env: Environment) {
    Truthy(env.subscriptionId) && Truthy(env.resourceGroup) && Truthy(env.mlWorkspace)
  }

  /** `validate_azure_ml_credentials`: skipped in demo mode, otherwise all three settings are needed. */
  function ValidateAzureMlCredentials(env: Environment): (r: Result<bool>)
    ensures DemoMode(env) ==> r == Ok(true)
    ensures !DemoMode(env) ==> (r.Ok? <==> MlSettingsPresent(env))
    ensures r.Ok? ==> r.value
    ensures r.Err? ==> r.message == MlCredentialsMissing
  {
    if DemoMode(env) then
      Ok(true)
    else if !MlSettingsPresent(env) then
      Err(MlCredentialsMissing)
    else
      Ok(true)
  }

  /** `Path.exists()` of the four output directories, as observed by the caller. */
  datatype Directories = Directories(data: bool, output: bool, reports: bool, visualizations: bool)

  datatype MlStatus = MlStatus(configured: bool, mode: string, workspace: Option<string>)

  datatype Status = Status(directories: Directories, languageConfigured: bool, mlConfigured: MlStatus)

  /**
    `get_status`: each "configured" flag agrees with the matching validator, and the mode
    names the demo switch.
   */
  function GetStatus(env: Environment, dirs: Directories): (s: Status)
    ensures s.directories == dirs
    ensures s.languageConfigured <==> ValidateAzureCredentials(env).Ok?
    ensures s.mlConfigured.configured <==> ValidateAzureMlCredentials(env).Ok?
    ensures s.mlConfigured.mode == (if DemoMode(env) then "DEMO" else "LIVE")
    ensures s.mlConfigured.workspace == env.mlWorkspace
  {
    Status(
      dirs,
      Truthy(env.languageEndpoint) && Truthy(env.languageKey),
      MlStatus(
        if DemoMode(env) then true else MlSettingsPresent(env),
        if DemoMode(env) then "DEMO" else "LIVE",
        env.mlWorkspace))
  }

  /** Some category of `cats` lists `t` among its terms. */
  predicate IsTerm(cats: seq<Category>, t: string) {
    exists ci, ti :: 0 <= ci < |cats| && 0 <= ti < |cats[ci].terms| && cats[ci].terms[ti] == t
  }

  /** The taxonomy has five categories, with these severities, in this order. */
  lemma TaxonomyShape()
    ensures |BiasKeywords| == 5
    ensures BiasKeywords[0].name == "age" && BiasKeywords[0].severity == "high"
    ensures BiasKeywords[1].name == "gender" && BiasKeywords[1].severity == "high"
    ensures BiasKeywords[2].name == "origin" && BiasKeywords[2].severity == "medium"
    ensures BiasKeywords[3].name == "physical" && BiasKeywords[3].severity == "medium"
    ensures BiasKeywords[4].name == "cultural" && BiasKeywords[4].severity == "low"
  {
  }

  /** Every key of `REPLACEMENTS` is a taxonomy term, so every suggestion can be reached. */
  lemma ReplacementKeysAreTerms()
    ensures forall k :: k in Replacements ==> IsTerm(BiasKeywords, k)
  {
    assert Replacements.Keys == {
      BiasKeywords[0].terms[0], BiasKeywords[0].terms[1], BiasKeywords[0].terms[2],
      BiasKeywords[1].terms[0], BiasKeywords[1].terms[1], BiasKeywords[1].terms[2],
      BiasKeywords[1].terms[3], BiasKeywords[1].terms[4], BiasKeywords[1].terms[5],
      BiasKeywords[2].terms[0], BiasKeywords[0].terms[4], BiasKeywords[0].terms[5],
      BiasKeywords[4].terms[0]};
    forall k | k in Replacements
      ensures IsTerm(BiasKeywords, k)
    {
      var ci, ti :|
        ci in {0, 1, 2, 4} && 0 <= ti < 6 && ti < |BiasKeywords[ci].terms| && BiasKeywords[ci].terms[ti] == k;
    }
  }

  /**
    Some terms contain other terms: "native" lies inside "digital native" (age vs origin) and
    "fit" inside "culture fit" (physical vs cultural).
   */
  lemma NestedTerms()
    ensures BiasKeywords[0].terms[5] == "digital native" && BiasKeywords[2].terms[0] == "native"
    ensures Text.SubstringOf(BiasKeywords[2].terms[0], BiasKeywords[0].terms[5])
    ensures BiasKeywords[4].terms[0] == "culture fit" && BiasKeywords[3].terms[0] == "fit"
    ensures Text.SubstringOf(BiasKeywords[3].terms[0], BiasKeywords[4].terms[0])
  {
    assert Text.OccursAt("native", "digital native", 8);
    assert Text.OccursAt("fit", "culture fit", 8);
  }

  /** The four-fifths threshold in the configuration. */
  lemma EeocThresholdIsFourFifths()
    ensures "eeoc_80_percent" in BiasThresholds && BiasThresholds["eeoc_80_percent"] == 0.8
  {
  }
}
