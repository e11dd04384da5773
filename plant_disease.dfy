/**
 * The rule-based part of the plant-disease page: turning a classifier label
 * into disease information by keyword rules, the severity badge colour, and
 * the bounded history of recent results.
 */
module PlantDisease {
  import opened Wrappers
  import opened Text

  datatype Severity = Low | Medium | High

  datatype DiseaseInfo = DiseaseInfo(disease: string, severity: Severity, treatment: string, description: string)

  /** One analysis result shown on the page; `confidence` is the classifier score times 100. */
  datatype DetectionResult = DetectionResult(
    labelText: string, confidence: real, disease: string, severity: Severity, treatment: string, description: string)

  /** Does the lower-cased label contain one of the keywords? */
  predicate MentionsAny(lower: string, keywords: seq<string>) {
    keywords != [] && (Includes(lower, keywords[0]) || MentionsAny(lower, keywords[1..]))
  }

  const HealthyWords: seq<string> := ["healthy", "normal"]
  const RustWords: seq<string> := ["rust", "orange", "brown"]
  const BlightWords: seq<string> := ["blight", "black", "dead"]
  const SpotWords: seq<string> := ["spot", "lesion"]
  const MildewWords: seq<string> := ["mildew", "powder"]
  const YellowWords: seq<string> := ["yellow", "chlorotic"]
  const WiltWords: seq<string> := ["wilt", "droop"]

  const HealthyInfo := DiseaseInfo("Healthy Plant", Low,
    "Continue current care routine. Plant appears healthy.",
    "The plant shows no signs of disease and appears to be in good condition.")
  const RustInfo := DiseaseInfo("Possible Rust Disease", Medium,
    "Apply fungicide, improve air circulation, avoid overhead watering.",
    "Potential fungal disease causing orange or brown spots on leaves.")
  const BlightInfo := DiseaseInfo("Possible Blight", High,
    "Remove affected parts, apply copper-based fungicide, improve drainage.",
    "Serious disease causing rapid browning and death of plant tissues.")
  const SpotInfo := DiseaseInfo("Possible Leaf Spot", Medium,
    "Remove affected leaves, improve air circulation, apply fungicide if needed.",
    "Fungal or bacterial infection causing spots on leaves.")
  const MildewInfo := DiseaseInfo("Possible Powdery Mildew", Medium,
    "Improve air circulation, reduce humidity, apply fungicide.",
    "Fungal disease appearing as white powdery coating on leaves.")
  const YellowInfo := DiseaseInfo("Possible Nutrient Deficiency", Medium,
    "Check soil nutrients, adjust fertilization, ensure proper watering.",
    "Yellowing may indicate nutrient deficiency or stress.")
  const WiltInfo := DiseaseInfo("Possible Wilting/Stress", Medium,
    "Check watering schedule, soil drainage, and root health.",
    "Plant showing signs of water stress or root problems.")

  /** The advice for a label that matches no rule; it quotes the label as given, not lower-cased. */
  function UnknownInfo(labelText: string): DiseaseInfo {
    DiseaseInfo("Plant Type: " + labelText, Low,
      "Monitor plant health regularly and maintain good growing conditions.",
      "Identified as " + labelText + ". Continue standard plant care practices.")
  }

  /** `parseDiseaseInfo(label)`: the if/else chain over the lower-cased label. */
  function ParseDiseaseInfo(labelText: string): (r: DiseaseInfo)
    ensures Includes(Lower(labelText), "healthy") || Includes(Lower(labelText), "normal") ==> r == HealthyInfo
    ensures r.severity == High ==> r == BlightInfo
    ensures r.severity == Low ==> r == HealthyInfo || r == UnknownInfo(labelText)
  {
    var lower := Lower(labelText);
    if Includes(lower, "healthy") || Includes(lower, "normal") then HealthyInfo
    else if Includes(lower, "rust") || Includes(lower, "orange") || Includes(lower, "brown") then RustInfo
    else if Includes(lower, "blight") || Includes(lower, "black") || Includes(lower, "dead") then BlightInfo
    else if Includes(lower, "spot") || Includes(lower, "lesion") then SpotInfo
    else if Includes(lower, "mildew") || Includes(lower, "powder") then MildewInfo
    else if Includes(lower, "yellow") || Includes(lower, "chlorotic") then YellowInfo
    else if Includes(lower, "wilt") || Includes(lower, "droop") then WiltInfo
    else UnknownInfo(labelText)
  }

  /** The same rules as a table, in priority order. */
  datatype Rule = Rule(keywords: seq<string>, info: DiseaseInfo)

  const Rules: seq<Rule> := [
    Rule(HealthyWords, HealthyInfo), Rule(RustWords, RustInfo), Rule(BlightWords, BlightInfo),
    Rule(SpotWords, SpotInfo), Rule(MildewWords, MildewInfo), Rule(YellowWords, YellowInfo),
    Rule(WiltWords, WiltInfo)
  ]

  /** The information of the first rule whose keywords the label mentions. */
  function FirstMatch(rules: seq<Rule>, lower: string): (r: Option<DiseaseInfo>)
    ensures r.None? <==> forall i :: 0 <= i < |rules| ==> !MentionsAny(lower, rules[i].keywords)
    ensures r.Some? ==> exists i :: 0 <= i < |rules| && MentionsAny(lower, rules[i].keywords)
                          && r.value == rules[i].info
                          && forall j :: 0 <= j < i ==> !MentionsAny(lower, rules[j].keywords)
  {
    if rules == [] then None
    else if MentionsAny(lower, rules[0].keywords) then Some(rules[0].info)
    else
      var r := FirstMatch(rules[1..], lower);
      assert forall i :: 1 <= i < |rules| ==> rules[i] == rules[1..][i - 1];
      r
  }

  /** Reference classification: first matching rule of the table, else the unknown-label advice. */
  function ClassifyByTable(labelText: string): DiseaseInfo {
    match FirstMatch(Rules, Lower(labelText))
    case Some(info) => info
    case None => UnknownInfo(labelText)
  }

  lemma MentionsTwo(lower: string, a: string, b: string)
    ensures MentionsAny(lower, [a, b]) <==> Includes(lower, a) || Includes(lower, b)
  {
    assert [a, b][1..] == [b] && [b][1..] == [];
    assert MentionsAny(lower, [b]) == Includes(lower, b);
  }

  lemma MentionsThree(lower: string, a: string, b: string, c: string)
    ensures MentionsAny(lower, [a, b, c]) <==> Includes(lower, a) || Includes(lower, b) || Includes(lower, c)
  {
    assert [a, b, c][1..] == [b, c] && [b, c][1..] == [c] && [c][1..] == [];
    assert MentionsAny(lower, [c]) == Includes(lower, c);
    assert MentionsAny(lower, [b, c]) == (Includes(lower, b) || Includes(lower, c));
  }

  /** The first rule that matches decides. */
  lemma {:induction false} FirstMatchAt(rules: seq<Rule>, lower: string, i: nat)
    requires i < |rules| && MentionsAny(lower, rules[i].keywords)
    requires forall j :: 0 <= j < i ==> !MentionsAny(lower, rules[j].keywords)
    ensures FirstMatch(rules, lower) == Some(rules[i].info)
  {
    if i > 0 {
      assert !MentionsAny(lower, rules[0].keywords);
      FirstMatchAt(rules[1..], lower, i - 1);
    }
  }

  /** A table that starts with rule `r`: `r` decides if it matches, otherwise the rest does. */
  lemma FirstMatchCons(r: Rule, rest: seq<Rule>, lower: string)
    ensures FirstMatch([r] + rest, lower) == if MentionsAny(lower, r.keywords) then Some(r.info) else FirstMatch(rest, lower)
  {
    assert ([r] + rest)[1..] == rest;
  }

  /** The table's first match, spelled out rule by rule. */
  lemma FirstMatchOfRules(lower: string)
    ensures FirstMatch(Rules, lower) ==
      if MentionsAny(lower, HealthyWords) then Some(HealthyInfo)
      else if MentionsAny(lower, RustWords) then Some(RustInfo)
      else if MentionsAny(lower, BlightWords) then Some(BlightInfo)
      else if MentionsAny(lower, SpotWords) then Some(SpotInfo)
      else if MentionsAny(lower, MildewWords) then Some(MildewInfo)
      else if MentionsAny(lower, YellowWords) then Some(YellowInfo)
      else if MentionsAny(lower, WiltWords) then Some(WiltInfo)
      else None
  {
    var r6: seq<Rule> := [Rule(WiltWords, WiltInfo)] + [];
    var r5 := [Rule(YellowWords, YellowInfo)] + r6;
    var r4 := [Rule(MildewWords, MildewInfo)] + r5;
    var r3 := [Rule(SpotWords, SpotInfo)] + r4;
    var r2 := [Rule(BlightWords, BlightInfo)] + r3;
    var r1 := [Rule(RustWords, RustInfo)] + r2;
    assert Rules == [Rule(HealthyWords, HealthyInfo)] + r1;
    FirstMatchCons(Rule(HealthyWords, HealthyInfo), r1, lower);
    FirstMatchCons(Rule(RustWords, RustInfo), r2, lower);
    FirstMatchCons(Rule(BlightWords, BlightInfo), r3, lower);
    FirstMatchCons(Rule(SpotWords, SpotInfo), r4, lower);
    FirstMatchCons(Rule(MildewWords, MildewInfo), r5, lower);
    FirstMatchCons(Rule(YellowWords, YellowInfo), r6, lower);
    FirstMatchCons(Rule(WiltWords, WiltInfo), [], lower);
  }

  /** The if/else chain is exactly "first matching rule wins" over the table. */
  lemma ParseIsFirstMatch(labelText: string)
    ensures ParseDiseaseInfo(labelText) == ClassifyByTable(labelText)
  {
    RuleWords(Lower(labelText), 7);
    FirstMatchOfRules(Lower(labelText));
  }

  /** The keyword tests of the first `n` rules, spelled out as in the if/else chain. */
  lemma RuleWords(lower: string, n: nat)
    ensures n >= 1 ==> (MentionsAny(lower, HealthyWords) <==> Includes(lower, "healthy") || Includes(lower, "normal"))
    ensures n >= 2 ==> (MentionsAny(lower, RustWords) <==> Includes(lower, "rust") || Includes(lower, "orange") || Includes(lower, "brown"))
    ensures n >= 3 ==> (MentionsAny(lower, BlightWords) <==> Includes(lower, "blight") || Includes(lower, "black") || Includes(lower, "dead"))
    ensures n >= 4 ==> (MentionsAny(lower, SpotWords) <==> Includes(lower, "spot") || Includes(lower, "lesion"))
    ensures n >= 5 ==> (MentionsAny(lower, MildewWords) <==> Includes(lower, "mildew") || Includes(lower, "powder"))
    ensures n >= 6 ==> (MentionsAny(lower, YellowWords) <==> Includes(lower, "yellow") || Includes(lower, "chlorotic"))
    ensures n >= 7 ==> (MentionsAny(lower, WiltWords) <==> Includes(lower, "wilt") || Includes(lower, "droop"))
  {
    MentionsTwo(lower, "healthy", "normal");
    MentionsThree(lower, "rust", "orange", "brown");
    MentionsThree(lower, "blight", "black", "dead");
    MentionsTwo(lower, "spot", "lesion");
    MentionsTwo(lower, "mildew", "powder");
    MentionsTwo(lower, "yellow", "chlorotic");
    MentionsTwo(lower, "wilt", "droop");
  }

  /** A label mentioning "healthy" or "normal" is healthy, whatever else it mentions. */
  lemma HealthyTakesPriority(labelText: string)
    requires Includes(Lower(labelText), "healthy") || Includes(Lower(labelText), "normal")
    ensures ParseDiseaseInfo(labelText).disease == "Healthy Plant"
    ensures ParseDiseaseInfo(labelText).severity == Low
  {
  }

  /** Severity is high exactly when the blight rule is the first to match. */
  lemma HighSeverityIffBlightFirst(labelText: string)
    ensures ParseDiseaseInfo(labelText).severity == High <==>
      var lower := Lower(labelText);
      && !MentionsAny(lower, HealthyWords)
      && !MentionsAny(lower, RustWords)
      && MentionsAny(lower, BlightWords)
  {
    MentionsTwo(Lower(labelText), "healthy", "normal");
    MentionsThree(Lower(labelText), "rust", "orange", "brown");
    MentionsThree(Lower(labelText), "blight", "black", "dead");
    var lower := Lower(labelText);
  }

  /** A label matching no rule is reported as a plant type, with low severity and the label unchanged. */
  lemma UnmatchedLabel(labelText: string)
    requires forall i :: 0 <= i < |Rules| ==> !MentionsAny(Lower(labelText), Rules[i].keywords)
    ensures ParseDiseaseInfo(labelText).disease == "Plant Type: " + labelText
    ensures ParseDiseaseInfo(labelText).severity == Low
  {
    ParseIsFirstMatch(labelText);
  }

  const GreenClasses := "bg-green-100 text-green-800 border-green-200"
  const YellowClasses := "bg-yellow-100 text-yellow-800 border-yellow-200"
  const RedClasses := "bg-red-100 text-red-800 border-red-200"
  const GrayClasses := "bg-gray-100 text-gray-800 border-gray-200"

  /** `getSeverityColor(severity)`: badge classes for a severity name. */
  function GetSeverityColor(severity: string): (r: string)
    ensures r == GrayClasses <==> severity != "low" && severity != "medium" && severity != "high"
    ensures severity == "low" ==> r == GreenClasses
    ensures severity == "medium" ==> r == YellowClasses
    ensures severity == "high" ==> r == RedClasses
  {
    if severity == "low" then GreenClasses
    else if severity == "medium" then YellowClasses
    else if severity == "high" then RedClasses
    else GrayClasses
  }

  function SeverityName(s: Severity): string {
    match s
    case Low => "low"
    case Medium => "medium"
    case High => "high"
  }

  /** Every severity the classifier produces gets its own, non-gray colour. */
  lemma SeverityColoursDistinct(a: Severity, b: Severity)
    ensures GetSeverityColor(SeverityName(a)) != GrayClasses
    ensures a != b ==> GetSeverityColor(SeverityName(a)) != GetSeverityColor(SeverityName(b))
  {
  }

  const HistoryLimit := 5

  /** `[newResult, ...prev].slice(0, 5)`: newest first, at most five entries. */
  function PushHistory(prev: seq<DetectionResult>, newest: DetectionResult): (r: seq<DetectionResult>)
    ensures |r| == if |prev| < HistoryLimit then |prev| + 1 else HistoryLimit
    ensures r[0] == newest
    ensures r[1..] == prev[..|r| - 1]
  {
    var all := [newest] + prev;
    all[..if |all| < HistoryLimit then |all| else HistoryLimit]
  }

  /** However many results arrive, the history never holds more than five. */
  lemma {:induction false} HistoryStaysBounded(start: seq<DetectionResult>, arrivals: seq<DetectionResult>)
    requires |start| <= HistoryLimit
    ensures |PushAll(start, arrivals)| <= HistoryLimit
    ensures arrivals != [] ==> PushAll(start, arrivals)[0] == arrivals[|arrivals| - 1]
  {
    if arrivals != [] {
      HistoryStaysBounded(start, arrivals[..|arrivals| - 1]);
    }
  }

  /** The history after each of `arrivals` was pushed, in arrival order. */
  function PushAll(start: seq<DetectionResult>, arrivals: seq<DetectionResult>): seq<DetectionResult> {
    if arrivals == [] then start
    else PushHistory(PushAll(start, arrivals[..|arrivals| - 1]), arrivals[|arrivals| - 1])
  }
}
