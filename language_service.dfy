/**
  The job-text bias scanner (azure_language_service.py). `AzureLanguageBiasDetector` scans the
  lower-cased text `title + ". " + description` for every taxonomy term, records one hit per
  matching entry, adds severity points, caps the score at 100 and bands it into a level. The
  sentiment classifier is an opaque function held by the detector; its answer is passed through.
 */
module LanguageService {
  import opened Wrappers
  import Text
  import Config

  /** What the external sentiment classifier returns for one document. */
  datatype Sentiment = Sentiment(overall: string, positive: real, neutral: real, negative: real)

  /** The three confidence scores copied into a result. */
  datatype Confidence = Confidence(positive: real, neutral: real, negative: real)

  /** One entry of `detected_terms`. */
  datatype DetectedTerm = DetectedTerm(
    term: string, category: string, severity: string, description: string, suggestion: string)

  /** The record `analyze_single_job` returns. */
  datatype JobResult = JobResult(
    jobTitle: string,
    biasDetected: bool,
    biasScore: int,
    biasLevel: string,
    detectedTerms: seq<DetectedTerm>,
    azureSentiment: string,
    azureConfidence: Confidence,
    explainabilityNote: string)

  /** One job posting handed to `batch_analyze`. */
  datatype Job = Job(title: string, description: string)

  /** The `summary` entry that main.py adds to a batch result when it is missing. */
  datatype Summary = Summary(totalJobs: nat, jobsWithBias: nat, averageBiasScore: real, biasLevels: seq<(string, nat)>)

  /** The record `batch_analyze` returns; `summary` is the optional key main.py inserts. */
  datatype BatchResult = BatchResult(
    service: string, timestamp: string, results: seq<JobResult>, responsibleAiNote: string,
    summary: Option<Summary>)

  const FallbackSuggestion: string := "Use a more inclusive alternative"
  const ExplainabilityNote: string :=
    "Azure AI Language provides sentiment signals; BiasGuard combines these with inclusive-language rules."
  const ServiceName: string := "Azure AI Language Service (Text Analytics)"
  const ResponsibleAiNote: string := "Results highlight potential risks in language, not intent of employers."
  const CredentialsMissing: string := "Azure Language credentials missing. Check your .env file."
  const MaxScore: int := 100

  /** The text that is classified and scanned. */
  function FullText(title: string, description: string): string {
    title + ". " + description
  }

  /** The replacement registered under exactly `term`, or the generic fallback. */
  function Suggestion(replacements: map<string, string>, term: string): (s: string)
    ensures term in replacements ==> s == replacements[term]
    ensures term !in replacements ==> s == FallbackSuggestion
  {
    if term in replacements then replacements[term] else FallbackSuggestion
  }

  /** Points one hit adds: 25 for "high", 15 for "medium", 5 for any other severity. */
  function Points(severity: string): (p: int)
    ensures 5 <= p <= 25
    ensures severity == "high" <==> p == 25
    ensures severity == "medium" <==> p == 15
    ensures severity != "high" && severity != "medium" ==> p == 5
  {
    if severity == "high" then 25 else if severity == "medium" then 15 else 5
  }

  /** The hit recorded when `term` of category `cat` is found. */
  function Hit(cat: Config.Category, term: string, replacements: map<string, string>): DetectedTerm {
    DetectedTerm(term, cat.name, cat.severity, cat.description, Suggestion(replacements, term))
  }

  /** The hits `terms` of `cat` would produce, in term order, if every one matched. */
  function CategoryCandidates(cat: Config.Category, terms: seq<string>, replacements: map<string, string>): seq<DetectedTerm>
  {
    if terms == [] then []
    else CategoryCandidates(cat, terms[..|terms| - 1], replacements) + [Hit(cat, terms[|terms| - 1], replacements)]
  }

  /** Every entry of the taxonomy as a hit, in category order and then term order. */
  function Candidates(cats: seq<Config.Category>, replacements: map<string, string>): seq<DetectedTerm>
  {
    if cats == [] then []
    else
      var last := cats[|cats| - 1];
      Candidates(cats[..|cats| - 1], replacements) + CategoryCandidates(last, last.terms, replacements)
  }

  /** `term.lower() in text_lower` */
  predicate Matches(term: string, textLower: string) {
    Text.Contains(Text.Lower(term), textLower)
  }

  /** The hits of `hits` whose term matches, in their original order. */
  function Detected(hits: seq<DetectedTerm>, textLower: string): seq<DetectedTerm>
  {
    if hits == [] then []
    else
      var last := hits[|hits| - 1];
      Detected(hits[..|hits| - 1], textLower) + (if Matches(last.term, textLower) then [last] else [])
  }

  /** The `detected_terms` of a scan of `textLower` against the taxonomy `cats`. */
  function ScanHits(cats: seq<Config.Category>, replacements: map<string, string>, textLower: string): seq<DetectedTerm>
  {
    Detected(Candidates(cats, replacements), textLower)
  }

  /** The score before capping: the points of every hit. */
  function TotalPoints(hits: seq<DetectedTerm>): int
  {
    if hits == [] then 0 else TotalPoints(hits[..|hits| - 1]) + Points(hits[|hits| - 1].severity)
  }

  /** `bias_level`: bands inclusive on the lower bound, highest first. */
  function LevelOf(score: int): (level: string)
    ensures level == "CRITICAL" <==> 75 <= score
    ensures level == "HIGH" <==> 50 <= score < 75
    ensures level == "MEDIUM" <==> 25 <= score < 50
    ensures level == "LOW" <==> 0 < score < 25
    ensures level == "MINIMAL" <==> score <= 0
  {
    if score >= 75 then "CRITICAL"
    else if score >= 50 then "HIGH"
    else if score >= 25 then "MEDIUM"
    else if score > 0 then "LOW"
    else "MINIMAL"
  }

  /** Each hit adds between 5 and 25 points. */
  lemma {:induction false} TotalPointsBounds(hits: seq<DetectedTerm>)
    ensures 5 * |hits| <= TotalPoints(hits) <= 25 * |hits|
  {
    if hits != [] {
      TotalPointsBounds(hits[..|hits| - 1]);
    }
  }

  /**
    What `analyze_single_job` returns for a title, a description and the classifier's answer,
    given the taxonomy and the replacement table.
   */
  function Analysis(
    title: string, description: string, sentiment: Sentiment,
    cats: seq<Config.Category>, replacements: map<string, string>): (r: JobResult)
    ensures r.jobTitle == title
    ensures r.detectedTerms == ScanHits(cats, replacements, Text.Lower(FullText(title, description)))
    ensures 0 <= r.biasScore <= MaxScore
    ensures r.biasScore == if TotalPoints(r.detectedTerms) < MaxScore then TotalPoints(r.detectedTerms) else MaxScore
    ensures r.biasDetected <==> r.detectedTerms != []
    ensures r.biasDetected <==> r.biasScore > 0
    ensures r.biasLevel == LevelOf(r.biasScore)
    ensures r.azureSentiment == sentiment.overall
    ensures r.azureConfidence == Confidence(sentiment.positive, sentiment.neutral, sentiment.negative)
  {
    var hits := ScanHits(cats, replacements, Text.Lower(FullText(title, description)));
    var raw := TotalPoints(hits);
    TotalPointsBounds(hits);
    var score := if raw < MaxScore then raw else MaxScore;
    JobResult(
      title, |hits| > 0, score, LevelOf(score), hits,
      sentiment.overall, Confidence(sentiment.positive, sentiment.neutral, sentiment.negative),
      ExplainabilityNote)
  }

  /** Scanning one more term appends its hit, if it matches, and adds its points. */
  lemma ScanStep(
    before: seq<DetectedTerm>, cat: Config.Category, terms: seq<string>, t: nat,
    replacements: map<string, string>, textLower: string)
    requires t < |terms|
    ensures var hit := Hit(cat, terms[t], replacements);
      && before + CategoryCandidates(cat, terms[..t + 1], replacements)
         == (before + CategoryCandidates(cat, terms[..t], replacements)) + [hit]
      && Detected((before + CategoryCandidates(cat, terms[..t], replacements)) + [hit], textLower)
         == Detected(before + CategoryCandidates(cat, terms[..t], replacements), textLower)
            + (if Matches(terms[t], textLower) then [hit] else [])
  {
    assert terms[..t + 1][..t] == terms[..t];
    var prefix := before + CategoryCandidates(cat, terms[..t], replacements);
    assert (prefix + [Hit(cat, terms[t], replacements)])[..|prefix|] == prefix;
  }

  lemma TotalPointsSnoc(hits: seq<DetectedTerm>, hit: DetectedTerm)
    ensures TotalPoints(hits + [hit]) == TotalPoints(hits) + Points(hit.severity)
  {
    assert (hits + [hit])[..|hits|] == hits;
  }

  /** Finishing a category extends the candidates of the categories scanned so far. */
  lemma CategoryDone(cats: seq<Config.Category>, c: nat, replacements: map<string, string>)
    requires c < |cats|
    ensures Candidates(cats[..c + 1], replacements)
      == Candidates(cats[..c], replacements) + CategoryCandidates(cats[c], cats[c].terms[..|cats[c].terms|], replacements)
  {
    assert cats[..c + 1][..c] == cats[..c];
    assert cats[c].terms[..|cats[c].terms|] == cats[c].terms;
  }

  /** The number of entries in a taxonomy. */
  function TermCount(cats: seq<Config.Category>): nat {
    if cats == [] then 0 else TermCount(cats[..|cats| - 1]) + |cats[|cats| - 1].terms|
  }

  /** A hit survives the filter exactly when it was a candidate and its term matches. */
  lemma {:induction false} DetectedMember(hits: seq<DetectedTerm>, textLower: string, h: DetectedTerm)
    ensures h in Detected(hits, textLower) <==> h in hits && Matches(h.term, textLower)
  {
    if hits != [] {
      var front := hits[..|hits| - 1];
      DetectedMember(front, textLower, h);
      assert hits == front + [hits[|hits| - 1]];
    }
  }

  /** Filtering keeps each hit at most as often as it was a candidate. */
  lemma {:induction false} DetectedSubMultiset(hits: seq<DetectedTerm>, textLower: string)
    ensures multiset(Detected(hits, textLower)) <= multiset(hits)
  {
    if hits != [] {
      var front := hits[..|hits| - 1];
      DetectedSubMultiset(front, textLower);
      assert hits == front + [hits[|hits| - 1]];
    }
  }

  /** Filtering never lengthens. */
  lemma {:induction false} DetectedLength(hits: seq<DetectedTerm>, textLower: string)
    ensures |Detected(hits, textLower)| <= |hits|
  {
    if hits != [] {
      DetectedLength(hits[..|hits| - 1], textLower);
    }
  }

  lemma {:induction false} CategoryCandidatesShape(cat: Config.Category, terms: seq<string>, replacements: map<string, string>)
    ensures |CategoryCandidates(cat, terms, replacements)| == |terms|
    ensures forall ti :: 0 <= ti < |terms| ==> CategoryCandidates(cat, terms, replacements)[ti] == Hit(cat, terms[ti], replacements)
  {
    if terms != [] {
      CategoryCandidatesShape(cat, terms[..|terms| - 1], replacements);
    }
  }

  /** Every taxonomy entry is a candidate, and every candidate comes from an entry; one candidate per entry. */
  lemma {:induction false} CandidatesShape(cats: seq<Config.Category>, replacements: map<string, string>)
    ensures |Candidates(cats, replacements)| == TermCount(cats)
    ensures forall ci, ti :: 0 <= ci < |cats| && 0 <= ti < |cats[ci].terms| ==>
      Hit(cats[ci], cats[ci].terms[ti], replacements) in Candidates(cats, replacements)
    ensures forall h :: h in Candidates(cats, replacements) ==>
      exists ci, ti :: 0 <= ci < |cats| && 0 <= ti < |cats[ci].terms| && h == Hit(cats[ci], cats[ci].terms[ti], replacements)
  {
    if cats != [] {
      var n := |cats| - 1;
      var front := cats[..n];
      CandidatesShape(front, replacements);
      CategoryCandidatesShape(cats[n], cats[n].terms, replacements);
      var cs := Candidates(cats, replacements);
      assert cs == Candidates(front, replacements) + CategoryCandidates(cats[n], cats[n].terms, replacements);
      forall ci, ti | 0 <= ci < |cats| && 0 <= ti < |cats[ci].terms|
        ensures Hit(cats[ci], cats[ci].terms[ti], replacements) in cs
      {
        if ci < n {
          assert front[ci] == cats[ci];
        } else {
          assert CategoryCandidates(cats[n], cats[n].terms, replacements)[ti] == Hit(cats[ci], cats[ci].terms[ti], replacements);
        }
      }
      forall h | h in cs
        ensures exists ci, ti :: 0 <= ci < |cats| && 0 <= ti < |cats[ci].terms| && h == Hit(cats[ci], cats[ci].terms[ti], replacements)
      {
        if h in Candidates(front, replacements) {
          var ci, ti :| 0 <= ci < |front| && 0 <= ti < |front[ci].terms| && h == Hit(front[ci], front[ci].terms[ti], replacements);
          assert front[ci] == cats[ci];
        } else {
          var k :| 0 <= k < |cats[n].terms| && CategoryCandidates(cats[n], cats[n].terms, replacements)[k] == h;
          assert h == Hit(cats[n], cats[n].terms[k], replacements);
        }
      }
    }
  }

  /**
    A taxonomy entry is reported exactly when its lower-cased term is a substring of the
    lower-cased text, wherever and however often it occurs.
   */
  lemma TermDetectedIff(cats: seq<Config.Category>, replacements: map<string, string>, textLower: string, ci: nat, ti: nat)
    requires ci < |cats| && ti < |cats[ci].terms|
    ensures Hit(cats[ci], cats[ci].terms[ti], replacements) in ScanHits(cats, replacements, textLower)
      <==> Text.SubstringOf(Text.Lower(cats[ci].terms[ti]), textLower)
  {
    CandidatesShape(cats, replacements);
    DetectedMember(Candidates(cats, replacements), textLower, Hit(cats[ci], cats[ci].terms[ti], replacements));
  }

  /**
    Every reported hit is the hit of some taxonomy entry whose term occurs in the text, and the
    scan reports at most one hit per entry.
   */
  lemma HitsSound(cats: seq<Config.Category>, replacements: map<string, string>, textLower: string)
    ensures |ScanHits(cats, replacements, textLower)| <= TermCount(cats)
    ensures multiset(ScanHits(cats, replacements, textLower)) <= multiset(Candidates(cats, replacements))
    ensures forall h :: h in ScanHits(cats, replacements, textLower) ==>
      Text.SubstringOf(Text.Lower(h.term), textLower) &&
      exists ci, ti :: 0 <= ci < |cats| && 0 <= ti < |cats[ci].terms| && h == Hit(cats[ci], cats[ci].terms[ti], replacements)
  {
    var cs := Candidates(cats, replacements);
    CandidatesShape(cats, replacements);
    DetectedLength(cs, textLower);
    DetectedSubMultiset(cs, textLower);
    forall h | h in ScanHits(cats, replacements, textLower)
      ensures h in cs && Matches(h.term, textLower)
    {
      DetectedMember(cs, textLower, h);
    }
  }

  /** The hits the taxonomy records for "digital native" and for "native". */
  lemma NativeHits()
    ensures Hit(Config.BiasKeywords[0], Config.BiasKeywords[0].terms[5], Config.Replacements)
      == DetectedTerm("digital native", "age", "high", "Age-related discriminatory language", "technology-proficient")
    ensures Hit(Config.BiasKeywords[2], Config.BiasKeywords[2].terms[0], Config.Replacements)
      == DetectedTerm("native", "origin", "medium", "National origin bias", "fluent")
  {
  }

  /** Two different elements make a sequence at least two long. */
  lemma TwoMembers<T>(s: seq<T>, x: T, y: T)
    requires x in s && y in s && x != y
    ensures |s| >= 2
  {
  }

  /**
    Overlapping terms are credited separately: when the term of entry (cj, tj) lies inside the
    term of a different entry (ci, ti), a text containing the longer term reports both entries.
   */
  lemma {:induction false} NestedTermsBothReported(
    cats: seq<Config.Category>, replacements: map<string, string>, textLower: string,
    ci: nat, ti: nat, cj: nat, tj: nat)
    requires ci < |cats| && ti < |cats[ci].terms| && cj < |cats| && tj < |cats[cj].terms|
    requires Text.SubstringOf(Text.Lower(cats[cj].terms[tj]), Text.Lower(cats[ci].terms[ti]))
    requires Text.SubstringOf(Text.Lower(cats[ci].terms[ti]), textLower)
    requires Hit(cats[ci], cats[ci].terms[ti], replacements) != Hit(cats[cj], cats[cj].terms[tj], replacements)
    ensures Hit(cats[ci], cats[ci].terms[ti], replacements) in ScanHits(cats, replacements, textLower)
    ensures Hit(cats[cj], cats[cj].terms[tj], replacements) in ScanHits(cats, replacements, textLower)
    ensures |ScanHits(cats, replacements, textLower)| >= 2
    ensures TotalPoints(ScanHits(cats, replacements, textLower)) >= 10
  {
    Text.SubstringTransitive(Text.Lower(cats[cj].terms[tj]), Text.Lower(cats[ci].terms[ti]), textLower);
    TermDetectedIff(cats, replacements, textLower, ci, ti);
    TermDetectedIff(cats, replacements, textLower, cj, tj);
    var hits := ScanHits(cats, replacements, textLower);
    TwoMembers(hits, Hit(cats[ci], cats[ci].terms[ti], replacements), Hit(cats[cj], cats[cj].terms[tj], replacements));
    TotalPointsBounds(hits);
  }

  /**
    In BiasGuard's taxonomy, a text containing "digital native" is reported for the age term
    "digital native" and for the origin term "native", each with its own suggestion.
   */
  lemma DigitalNativeYieldsTwoHits(textLower: string)
    requires Text.SubstringOf("digital native", textLower)
    ensures var hits := ScanHits(Config.BiasKeywords, Config.Replacements, textLower);
      && DetectedTerm("digital native", "age", "high", "Age-related discriminatory language", "technology-proficient") in hits
      && DetectedTerm("native", "origin", "medium", "National origin bias", "fluent") in hits
      && |hits| >= 2
  {
    NativeOverlap(textLower);
    NativeHits();
    NestedTermsBothReported(Config.BiasKeywords, Config.Replacements, textLower, 0, 5, 2, 0);
  }

  lemma NativeOverlap(textLower: string)
    requires Text.SubstringOf("digital native", textLower)
    ensures Text.SubstringOf(Text.Lower(Config.BiasKeywords[2].terms[0]), Text.Lower(Config.BiasKeywords[0].terms[5]))
    ensures Text.SubstringOf(Text.Lower(Config.BiasKeywords[0].terms[5]), textLower)
  {
    Config.NestedTerms();
    Text.LowerOfLowerCase(Config.BiasKeywords[0].terms[5]);
    Text.LowerOfLowerCase(Config.BiasKeywords[2].terms[0]);
  }

  /** Upper- and lower-case spellings of the same text are scanned identically. */
  lemma ScanIgnoresCase(
    title1: string, description1: string, title2: string, description2: string, sentiment: Sentiment,
    cats: seq<Config.Category>, replacements: map<string, string>)
    requires Text.EqualIgnoringCase(FullText(title1, description1), FullText(title2, description2))
    ensures var r1, r2 := Analysis(title1, description1, sentiment, cats, replacements),
                          Analysis(title2, description2, sentiment, cats, replacements);
      r1.detectedTerms == r2.detectedTerms && r1.biasScore == r2.biasScore && r1.biasLevel == r2.biasLevel
  {
    Text.LowerEqualIff(FullText(title1, description1), FullText(title2, description2));
  }

  /** The hybrid detector: credentials, the taxonomy it scans with and the sentiment client. */
  class AzureLanguageBiasDetector {
    const endpoint: string
    const key: string
    const biasKeywords: seq<Config.Category>
    const replacements: map<string, string>
    /** The external classifier, `TextAnalyticsClient.analyze_sentiment` on one document. */
    const client: string -> Sentiment

    /** The constructor raises unless both credentials are set and non-empty. */
    constructor (endpoint: Option<string>, key: Option<string>, client: string -> Sentiment)
      requires Config.Truthy(endpoint) && Config.Truthy(key)
      ensures this.endpoint == endpoint.value && this.key == key.value
      ensures biasKeywords == Config.BiasKeywords && replacements == Config.Replacements
      ensures this.client == client
    {
      this.endpoint := endpoint.value;
      this.key := key.value;
      biasKeywords := Config.BiasKeywords;
      replacements := Config.Replacements;
      this.client := client;
    }

    /** `analyze_single_job`: the nested scan loops accumulate exactly `Analysis`. */
    method AnalyzeSingleJob(jobTitle: string, jobDescription: string) returns (r: JobResult)
      ensures r == Analysis(jobTitle, jobDescription, client(FullText(jobTitle, jobDescription)), biasKeywords, replacements)
    {
      var fullText := FullText(jobTitle, jobDescription);
      var sentiment := client(fullText);
      var detected: seq<DetectedTerm> := [];
      var score := 0;
      var textLower := Text.Lower(fullText);
      var c := 0;
      while c < |biasKeywords|
        invariant 0 <= c <= |biasKeywords|
        invariant detected == Detected(Candidates(biasKeywords[..c], replacements), textLower)
        invariant score == TotalPoints(detected)
      {
        var category := biasKeywords[c];
        ghost var done := Candidates(biasKeywords[..c], replacements);
        var t := 0;
        assert category.terms[..0] == [] && done + [] == done;
        while t < |category.terms|
          invariant 0 <= t <= |category.terms|
          invariant detected == Detected(done + CategoryCandidates(category, category.terms[..t], replacements), textLower)
          invariant score == TotalPoints(detected)
        {
          var term := category.terms[t];
          var hit := Hit(category, term, replacements);
          ScanStep(done, category, category.terms, t, replacements, textLower);
          TotalPointsSnoc(detected, hit);
          if Text.Contains(Text.Lower(term), textLower) {
            detected := detected + [hit];
            if category.severity == "high" {
              score := score + 25;
            } else if category.severity == "medium" {
              score := score + 15;
            } else {
              score := score + 5;
            }
          }
          t := t + 1;
        }
        CategoryDone(biasKeywords, c, replacements);
        c := c + 1;
      }
      assert biasKeywords[..|biasKeywords|] == biasKeywords;
      score := if score < MaxScore then score else MaxScore;
      r := JobResult(
        jobTitle, |detected| > 0, score, LevelOf(score), detected,
        sentiment.overall, Confidence(sentiment.positive, sentiment.neutral, sentiment.negative),
        ExplainabilityNote);
    }

    /** The result this detector produces for one job. */
    function Expected(job: Job): JobResult {
      Analysis(job.title, job.description, client(FullText(job.title, job.description)), biasKeywords, replacements)
    }

    /** `batch_analyze`: one result per job, in input order, and no summary. */
    method BatchAnalyze(jobs: seq<Job>, timestamp: string) returns (b: BatchResult)
      ensures |b.results| == |jobs|
      ensures forall i :: 0 <= i < |jobs| ==> b.results[i] == Expected(jobs[i])
      ensures b.service == ServiceName && b.timestamp == timestamp && b.summary == None
      ensures b.responsibleAiNote == ResponsibleAiNote
    {
      var results: seq<JobResult> := [];
      for i := 0 to |jobs|
        invariant |results| == i
        invariant forall k :: 0 <= k < i ==> results[k] == Expected(jobs[k])
      {
        var r := AnalyzeSingleJob(jobs[i].title, jobs[i].description);
        results := results + [r];
      }
      b := BatchResult(ServiceName, timestamp, results, ResponsibleAiNote, None);
    }
  }
}
