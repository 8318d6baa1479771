/**
 * The static dialect registry of edi.py: accepted languages, default
 * separators, the segment codes per role, and the forecast / timing
 * cross-reference tables.
 */
module EdiTables {
  import opened Wrappers

  datatype Language = X12 | EDIFACT

  /** The language's name as the parser receives it. */
  function LanguageName(l: Language): string
  {
    match l
    case X12 => "X12"
    case EDIFACT => "EDIFACT"
  }

  /** VALID_LANGUAGES. */
  const ValidLanguages: set<string> := {"X12", "EDIFACT"}

  /** Recognises a language name; None for anything outside ValidLanguages. */
  function ParseLanguage(name: string): (r: Option<Language>)
    ensures r.Some? <==> name in ValidLanguages
    ensures r.Some? ==> LanguageName(r.value) == name
  {
    if name == "X12" then Some(X12)
    else if name == "EDIFACT" then Some(EDIFACT)
    else None
  }

  /** Every language's name is accepted and read back as that language. */
  lemma LanguageNameRoundTrip(l: Language)
    ensures LanguageName(l) in ValidLanguages
    ensures ParseLanguage(LanguageName(l)) == Some(l)
  {
  }

  datatype Separators = Separators(element: char, segment: char, subelement: char)

  /** DEFAULT_SEPARATORS. */
  function DefaultSeparators(l: Language): (s: Separators)
    ensures s.element != s.segment && s.element != s.subelement && s.segment != s.subelement
  {
    match l
    case X12 => Separators('*', '~', '<')
    case EDIFACT => Separators('+', '\'', ':')
  }

  /** The role names of EDI_SEGMENTS. */
  datatype Role =
    | Envelope | InnerMessage | RecordStart | Address | Loop | ClaimDetails
    | PartDetails | DateDetails | ServiceLineDetails | ProblemRecordDetails
    | Message | TotalCharge | Accum | Release | ReleaseType | Quantity
    | Reference | FileEnd

  /** EDI_SEGMENTS: the tuple of segment codes each role has in a language. */
  function SegmentCodes(l: Language, role: Role): seq<string>
  {
    match l
    case X12 => (
      match role
      case Envelope => ["ISA"]
      case InnerMessage => ["GS"]
      case RecordStart => ["BFR"]
      case Address => ["N1"]
      case Loop => ["ST"]
      case ClaimDetails => ["N9"]
      case PartDetails => ["LIN"]
      case DateDetails => ["DTM"]
      case ServiceLineDetails => ["SSS"]
      case ProblemRecordDetails => ["PRR"]
      case Message => ["MSG"]
      case TotalCharge => ["AMT"]
      case Accum => ["SHP", "ATH"]
      case Release => ["FST"]
      case ReleaseType => ["SDP"]
      case Quantity => ["QTY"]
      case Reference => ["REF"]
      case FileEnd => ["SE"])
    case EDIFACT => (
      match role
      case Envelope => ["UNB"]
      case InnerMessage => []
      case RecordStart => ["UNH"]
      case Address => ["NAD"]
      case Loop => ["BGM"]
      case ClaimDetails => []
      case PartDetails => ["LIN"]
      case DateDetails => ["DTM"]
      case ServiceLineDetails => []
      case ProblemRecordDetails => []
      case Message => ["MSG"]
      case TotalCharge => []
      case Accum => [""]
      case Release => [""]
      case ReleaseType => ["SCC"]
      case Quantity => ["QTY"]
      case Reference => ["REF"]
      case FileEnd => ["UNT"])
  }

  /** FORECAST_CROSSREF: forecast (release type) code to label, X12 only. */
  const ForecastCrossref: map<Language, map<string, string>> :=
    map[X12 := map["A" := "Immediate", "B" := "Pilot/Prevolume", "C" := "Firm",
                   "D" := "Planning", "Z" := "Mutually Defined"]]

  /** TIMING_CROSSREF: release timing code to label, X12 only. */
  const TimingCrossref: map<Language, map<string, string>> :=
    map[X12 := map["D" := "Discrete", "C" := "Daily", "F" := "Flexible Interval",
                   "M" := "Monthly Bucket", "W" := "Weekly Bucket", "Z" := "Mutually Defined"]]
}
