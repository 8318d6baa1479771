/**
 * The parser base of edi.py: construction, the dispatch map, the failure
 * log and the extraction methods, plus the document, part and release
 * records that handlers assemble.
 */
module Edi {
  import opened Wrappers
  import opened PyStr
  import opened EdiTables
  import opened EdiExtract

  /** The exceptions construction can raise. */
  datatype InitError = ValueError | AttributeError

  /**
   * What `EdiBase.__init__` does with its arguments. An unknown language is a
   * ValueError. A separator argument that is given (non-empty) is never
   * stored, so decoding the separators then fails with an AttributeError;
   * only construction with the default separators succeeds.
   */
  function InitOutcome(language: string, elementSeparator: string, subelementSeparator: string,
                       segmentSeparator: string): (r: Result<Language, InitError>)
    ensures r == Failure(ValueError) <==> language !in ValidLanguages
    ensures r == Failure(AttributeError)
            <==> language in ValidLanguages
                 && (elementSeparator != "" || subelementSeparator != "" || segmentSeparator != "")
    ensures r.Success? ==> LanguageName(r.value) == language
  {
    match ParseLanguage(language)
    case None => Failure(ValueError)
    case Some(l) =>
      if elementSeparator == "" && subelementSeparator == "" && segmentSeparator == "" then Success(l)
      else Failure(AttributeError)
  }

  /** The handler methods a dispatch map entry can name. */
  datatype Handler =
    | HandleEnvelope | HandleInner | HandleStart | HandleAddress | HandlePart
    | HandleRelease | HandleAccum | HandleEnd | HandleLoop

  /** The role whose segment codes key each handler in the dispatch map. */
  function HandlerRole(h: Handler): Role
  {
    match h
    case HandleEnvelope => Envelope
    case HandleInner => InnerMessage
    case HandleStart => RecordStart
    case HandleAddress => Role.Address
    case HandlePart => PartDetails
    case HandleRelease => Release
    case HandleAccum => Accum
    case HandleEnd => FileEnd
    case HandleLoop => Loop
  }

  /**
   * The `<role>_segment` attributes set by default_segments, other than
   * record_start_segment (which loop segments replace).
   */
  datatype SegmentAttributes = SegmentAttributes(
    envelope: seq<string>,
    innerMessage: seq<string>,
    address: seq<string>,
    loop: seq<string>,
    claimDetails: seq<string>,
    partDetails: seq<string>,
    dateDetails: seq<string>,
    releaseType: seq<string>,
    release: seq<string>,
    qtyDetails: seq<string>,
    reference: seq<string>,
    accum: seq<string>,
    serviceLineDetails: seq<string>,
    problemRecordDetails: seq<string>,
    message: seq<string>,
    totalCharge: seq<string>,
    fileEnd: seq<string>)

  /** default_segments' values for a language. */
  function DefaultSegmentAttributes(l: Language): (r: SegmentAttributes)
    ensures r.accum == r.release <==> l == EDIFACT
    ensures r.innerMessage == [] <==> l == EDIFACT
  {
    SegmentAttributes(
      SegmentCodes(l, Envelope),
      SegmentCodes(l, InnerMessage),
      SegmentCodes(l, Role.Address),
      SegmentCodes(l, Loop),
      SegmentCodes(l, ClaimDetails),
      SegmentCodes(l, PartDetails),
      SegmentCodes(l, DateDetails),
      SegmentCodes(l, ReleaseType),
      SegmentCodes(l, Release),
      SegmentCodes(l, Quantity),
      SegmentCodes(l, Reference),
      SegmentCodes(l, Accum),
      SegmentCodes(l, ServiceLineDetails),
      SegmentCodes(l, ProblemRecordDetails),
      SegmentCodes(l, Message),
      SegmentCodes(l, TotalCharge),
      SegmentCodes(l, FileEnd))
  }

  /**
   * DISPATCH_MAP built from the segment attributes: entries inserted in the
   * order of the dict display, so a later entry with an equal key replaces
   * an earlier one.
   */
  function DispatchMapOf(segments: SegmentAttributes, recordStart: seq<string>): (m: map<seq<string>, Handler>)
    ensures segments.loop in m && m[segments.loop] == HandleLoop
  {
    map[][segments.envelope := HandleEnvelope]
         [segments.innerMessage := HandleInner]
         [recordStart := HandleStart]
         [segments.address := HandleAddress]
         [segments.partDetails := HandlePart]
         [segments.release := HandleRelease]
         [segments.accum := HandleAccum]
         [segments.fileEnd := HandleEnd]
         [segments.loop := HandleLoop]
  }

  /** DISPATCH_MAP of a freshly constructed parser for a language. */
  function DispatchMapFor(l: Language): (m: map<seq<string>, Handler>)
    ensures SegmentCodes(l, Loop) in m && m[SegmentCodes(l, Loop)] == HandleLoop
  {
    DispatchMapOf(DefaultSegmentAttributes(l), SegmentCodes(l, RecordStart))
  }

  /** The X12 segment attributes, in declaration order. */
  lemma X12Segments()
    ensures DefaultSegmentAttributes(X12)
            == SegmentAttributes(["ISA"], ["GS"], ["N1"], ["ST"], ["N9"], ["LIN"], ["DTM"], ["SDP"], ["FST"],
               ["QTY"], ["REF"], ["SHP", "ATH"], ["SSS"], ["PRR"], ["MSG"], ["AMT"], ["SE"])
  {
  }

  /** The EDIFACT segment attributes; several roles have no codes at all. */
  lemma EdifactSegments()
    ensures DefaultSegmentAttributes(EDIFACT)
            == SegmentAttributes(["UNB"], [], ["NAD"], ["BGM"], [], ["LIN"], ["DTM"], ["SCC"], [""],
               ["QTY"], ["REF"], [""], [], [], ["MSG"], [], ["UNT"])
  {
  }

  /** For X12 the nine keys are distinct, so every handler has its own key. */
  lemma X12DispatchTable()
    ensures DispatchMapFor(X12)
            == map[["ISA"] := HandleEnvelope, ["GS"] := HandleInner, ["BFR"] := HandleStart,
                   ["N1"] := HandleAddress, ["LIN"] := HandlePart, ["FST"] := HandleRelease,
                   ["SHP", "ATH"] := HandleAccum, ["SE"] := HandleEnd, ["ST"] := HandleLoop]
  {
    X12Segments();
  }

  /** Every handler is reached through its own role's X12 codes. */
  lemma X12DispatchComplete(h: Handler)
    ensures SegmentCodes(X12, HandlerRole(h)) in DispatchMapFor(X12)
    ensures DispatchMapFor(X12)[SegmentCodes(X12, HandlerRole(h))] == h
  {
    X12Segments();
    match h
    case HandleEnvelope =>
    case HandleInner =>
    case HandleStart =>
    case HandleAddress =>
    case HandlePart =>
    case HandleRelease =>
    case HandleAccum =>
    case HandleEnd =>
    case HandleLoop =>
  }


  /**
   * For EDIFACT the accumulation and release roles share the key `("",)`;
   * the later accumulation entry wins, so no key leads to the release handler.
   */
  lemma EdifactDispatchTable()
    ensures SegmentCodes(EDIFACT, Accum) == SegmentCodes(EDIFACT, Release) == [""]
    ensures DispatchMapFor(EDIFACT)
            == map[["UNB"] := HandleEnvelope, [] := HandleInner, ["UNH"] := HandleStart,
                   ["NAD"] := HandleAddress, ["LIN"] := HandlePart, [""] := HandleAccum,
                   ["UNT"] := HandleEnd, ["BGM"] := HandleLoop]
    ensures HandleRelease !in DispatchMapFor(EDIFACT).Values
  {
    EdifactSegments();
    var m := DispatchMapFor(EDIFACT);
    forall k | k in m ensures m[k] != HandleRelease {
    }
  }

  /** The value of record_start_segment: the registry's tuple, or one code set by a loop segment. */
  datatype SegmentTag = Codes(codes: seq<string>) | Code(code: string)

  /** Python's `str(revision)` for the part revision. */
  function RevisionText(revision: Option<string>): string
  {
    match revision
    case None => "None"
    case Some(r) => r
  }

  /** The `part_rev` of a part: its number, a dash, and its revision's text. */
  function PartRev(partNo: string, revision: Option<string>): (r: string)
    ensures |r| > |partNo| && partNo <= r && r[|partNo|] == '-'
  {
    partNo + "-" + RevisionText(revision)
  }

  /** `part_rev` can be taken apart again into the part number and the revision text. */
  lemma PartRevSplits(partNo: string, revision: Option<string>)
    ensures var pr := PartRev(partNo, revision);
            |pr| == |partNo| + 1 + |RevisionText(revision)|
            && pr[..|partNo|] == partNo && pr[|partNo|] == '-'
            && pr[|partNo| + 1..] == RevisionText(revision)
  {
  }

  /** An absent revision reads as the text "None". */
  lemma PartRevWithoutRevision(partNo: string)
    ensures PartRev(partNo, None) == partNo + "-None"
    ensures PartRev(partNo, None) == PartRev(partNo, Some("None"))
  {
  }

  /**
   * The final `po` of a new part: the `po` keyword when it is passed (the
   * keyword loop stores it last), otherwise `customer_po`.
   */
  function PartPo(po: Option<string>, customerPo: Option<string>): (r: Option<string>)
    ensures r.Some? <==> po.Some? || customerPo.Some?
    ensures r == po || (po == None && r == customerPo)
  {
    if po.Some? then po else customerPo
  }

  /** The optional attributes of a part that set_if_none can name. */
  datatype PartAttribute =
    | Address | Plant | TotalAccum | TotalAccumStartDate | TotalAccumEndDate
    | LastReceivedShipQuantity | LastReceivedShipDate

  /** The text attributes of a part that set_if_none can also name; a new part may hold None in each. */
  datatype TextAttribute = Revision | Po | CustomerPo

  /** EdiDocument: one message between a start and an end segment. */
  class EdiDocument {
    var refNo: Value
    var partList: seq<EdiPart>
    var documentIssueDate: Option<Value>
    var horizonStartDate: Option<Value>
    var horizonEndDate: Option<Value>

    constructor (refNo: Value)
      ensures this.refNo == refNo && partList == []
      ensures documentIssueDate == None && horizonStartDate == None && horizonEndDate == None
    {
      this.refNo := refNo;
      partList := [];
      documentIssueDate := None;
      horizonStartDate := None;
      horizonEndDate := None;
    }
  }

  /** EdiPart: one part line of a document, updated in place by later segments. */
  class EdiPart {
    var partNo: string
    var revision: Option<string>
    var partRev: string
    var releaseList: seq<EdiReleaseDetails>
    var po: Option<string>
    var customerPo: Option<string>
    var address: Option<Value>
    var plant: Option<Value>
    var totalAccum: Option<Value>
    var totalAccumStartDate: Option<Value>
    var totalAccumEndDate: Option<Value>
    var lastReceivedShipQuantity: Option<Value>
    var lastReceivedShipDate: Option<Value>

    /** The current value of an optional attribute; None when it is absent or None. */
    function Get(name: PartAttribute): Option<Value>
      reads this
    {
      match name
      case Address => address
      case Plant => plant
      case TotalAccum => totalAccum
      case TotalAccumStartDate => totalAccumStartDate
      case TotalAccumEndDate => totalAccumEndDate
      case LastReceivedShipQuantity => lastReceivedShipQuantity
      case LastReceivedShipDate => lastReceivedShipDate
    }

    /** The current value of a text attribute. */
    function GetText(name: TextAttribute): Option<string>
      reads this
    {
      match name
      case Revision => revision
      case Po => po
      case CustomerPo => customerPo
    }

    /** The identifying fields, which nothing after construction changes. */
    function Identity(): (string, Option<string>, string, seq<EdiReleaseDetails>, Option<string>, Option<string>)
      reads this
    {
      (partNo, revision, partRev, releaseList, po, customerPo)
    }

    constructor (partNo: string, revision: Option<string>, po: Option<string>, customerPo: Option<string>)
      ensures this.partNo == partNo && this.revision == revision
      ensures partRev == PartRev(partNo, revision)
      ensures releaseList == []
      ensures this.po == PartPo(po, customerPo) && this.customerPo == customerPo
      ensures forall a :: Get(a) == None
    {
      this.partNo := partNo;
      this.revision := revision;
      partRev := PartRev(partNo, revision);
      releaseList := [];
      this.po := PartPo(po, customerPo);
      this.customerPo := customerPo;
      address := None;
      plant := None;
      totalAccum := None;
      totalAccumStartDate := None;
      totalAccumEndDate := None;
      lastReceivedShipQuantity := None;
      lastReceivedShipDate := None;
    }

    /** set_if_none: writes the attribute only when it is absent or None. */
    method SetIfNone(name: PartAttribute, value: Value)
      modifies this
      ensures Get(name) == if old(Get(name)).None? then Some(value) else old(Get(name))
      ensures forall a :: a != name ==> Get(a) == old(Get(a))
      ensures Identity() == old(Identity())
    {
      if Get(name).None? {
        match name
        case Address => address := Some(value);
        case Plant => plant := Some(value);
        case TotalAccum => totalAccum := Some(value);
        case TotalAccumStartDate => totalAccumStartDate := Some(value);
        case TotalAccumEndDate => totalAccumEndDate := Some(value);
        case LastReceivedShipQuantity => lastReceivedShipQuantity := Some(value);
        case LastReceivedShipDate => lastReceivedShipDate := Some(value);
      }
    }

    /**
     * set_if_none on `revision`, `po` or `customer_po`: the text is written
     * only when the attribute is None. `part_rev` was fixed at construction
     * and keeps the old revision.
     */
    method SetTextIfNone(name: TextAttribute, value: string)
      modifies this
      ensures GetText(name) == if old(GetText(name)).None? then Some(value) else old(GetText(name))
      ensures forall t :: t != name ==> GetText(t) == old(GetText(t))
      ensures forall a :: Get(a) == old(Get(a))
      ensures partNo == old(partNo) && partRev == old(partRev) && releaseList == old(releaseList)
    {
      if GetText(name).None? {
        match name
        case Revision => revision := Some(value);
        case Po => po := Some(value);
        case CustomerPo => customerPo := Some(value);
      }
    }

    /** Plain attribute assignment `part.<name> = value`. */
    method Set(name: PartAttribute, value: Value)
      modifies this
      ensures Get(name) == Some(value)
      ensures forall a :: a != name ==> Get(a) == old(Get(a))
      ensures Identity() == old(Identity())
    {
      match name
      case Address => address := Some(value);
      case Plant => plant := Some(value);
      case TotalAccum => totalAccum := Some(value);
      case TotalAccumStartDate => totalAccumStartDate := Some(value);
      case TotalAccumEndDate => totalAccumEndDate := Some(value);
      case LastReceivedShipQuantity => lastReceivedShipQuantity := Some(value);
      case LastReceivedShipDate => lastReceivedShipDate := Some(value);
    }
  }

  /** EdiReleaseDetails: one release line; the X12 form also decodes its type and timing. */
  class EdiReleaseDetails {
    var language: Language
    var date: string
    var quantity: string
    var relType: Option<string>
    var relTiming: Option<string>

    constructor (language: Language, date: string, quantity: string)
      ensures this.language == language && this.date == date && this.quantity == quantity
      ensures relType == None && relTiming == None
    {
      this.language := language;
      this.date := date;
      this.quantity := quantity;
      relType := None;
      relTiming := None;
    }
  }

  /** EdiBase: the dialect-independent parser state and its extraction methods. */
  class EdiBase {
    const language: Language
    const elementSeparator: char
    const subelementSeparator: char
    const segmentSeparator: char
    /** The date library the parser calls. */
    const strptime: DateConverter

    /** extraction_errors: every failure produced so far, in order. */
    var extractionErrors: seq<ExtractionFailure>

    var segments: SegmentAttributes
    var recordStartSegment: SegmentTag

    var dispatchMap: map<seq<string>, Handler>

    function Seps(): Separators
    {
      Separators(elementSeparator, segmentSeparator, subelementSeparator)
    }

    /** `__init__` with a recognised language and the default separators. */
    constructor (language: Language, strptime: DateConverter)
      ensures this.language == language && this.strptime == strptime
      ensures Seps() == DefaultSeparators(language)
      ensures segments == DefaultSegmentAttributes(language)
      ensures recordStartSegment == Codes(SegmentCodes(language, RecordStart))
      ensures dispatchMap == DispatchMapFor(language)
      ensures extractionErrors == []
    {
      this.language := language;
      var seps := DefaultSeparators(language);
      elementSeparator := seps.element;
      subelementSeparator := seps.subelement;
      segmentSeparator := seps.segment;
      this.strptime := strptime;
      extractionErrors := [];
      new;
      DefaultSegments();
      dispatchMap := DispatchMapOf(segments, recordStartSegment.codes);
    }

    /**
     * `EdiBase(language, element, subelement, segment)` run by a dialect
     * parser: the parser, or the exception construction raises.
     */
    static method Create(language: string, elementSeparator: string, subelementSeparator: string,
                         segmentSeparator: string, strptime: DateConverter)
      returns (r: Result<EdiBase, InitError>)
      ensures var outcome := InitOutcome(language, elementSeparator, subelementSeparator, segmentSeparator);
              match r
              case Failure(e) => outcome == Failure(e)
              case Success(p) =>
                && outcome == Success(p.language)
                && fresh(p) && p.strptime == strptime
                && p.Seps() == DefaultSeparators(p.language)
                && p.segments == DefaultSegmentAttributes(p.language)
                && p.recordStartSegment == Codes(SegmentCodes(p.language, RecordStart))
                && p.dispatchMap == DispatchMapFor(p.language)
                && p.extractionErrors == []
    {
      match InitOutcome(language, elementSeparator, subelementSeparator, segmentSeparator)
      case Failure(e) =>
        r := Failure(e);
      case Success(l) =>
        var p := new EdiBase(l, strptime);
        r := Success(p);
    }

    /** default_segments: load every segment attribute from the registry. */
    method DefaultSegments()
      modifies this`segments, this`recordStartSegment
      ensures segments == DefaultSegmentAttributes(language)
      ensures recordStartSegment == Codes(SegmentCodes(language, RecordStart))
    {
      segments := DefaultSegmentAttributes(language);
      recordStartSegment := Codes(SegmentCodes(language, RecordStart));
    }

    /** handle_extraction_error: append the failure to the log and hand it back. */
    method HandleExtractionError(error: ExtractionFailure) returns (e: ExtractionFailure)
      modifies this`extractionErrors
      ensures e == error
      ensures extractionErrors == old(extractionErrors) + [error]
    {
      extractionErrors := extractionErrors + [error];
      e := error;
    }

    /** The value a plain element request gives, as the handlers use it. */
    function Element(segment: string, i: int, opts: DateOptions): Value
    {
      LeafValue(segment, Seps(), Single(i), Elem(i), opts, true, strptime)
    }

    /** The values a list request gives, as the handlers use them. */
    function Elements(segment: string, ps: seq<Pos>, opts: DateOptions): (vs: seq<Value>)
      ensures |vs| == |ps|
    {
      ExtractAll(segment, Seps(), List(ps), ps, opts, strptime)
    }

    /** extract_one: one leaf, logging the failure that replaces it, if any. */
    method ExtractOne(segment: string, request: Request, pos: Pos, opts: DateOptions, strict: bool)
      returns (v: Value)
      modifies this`extractionErrors
      ensures v == LeafValue(segment, Seps(), request, pos, opts, strict, strptime)
      ensures extractionErrors == old(extractionErrors) + FailuresIn(v)
    {
      var element: string;
      match PyIndex(Split(segment, elementSeparator), pos.index) {
        case None =>
          var f := HandleExtractionError(ElementIndexFailure(segment, pos.index));
          return Failed(f);
        case Some(e) =>
          element := e;
      }
      var sub: Option<int> := None;
      if pos.SubElem? {
        match PyIndex(Split(element, subelementSeparator), pos.sub) {
          case None =>
            var f := HandleExtractionError(SubelementIndexFailure(segment, request, element, pos.sub));
            return Failed(f);
          case Some(s) =>
            element := s;
            sub := Some(pos.sub);
        }
      }
      if opts.date {
        match strptime(element, opts.formatIn, opts.formatOut) {
          case Some(d) =>
            element := d;
          case None =>
            if strict {
              var f := HandleExtractionError(DateConversionFailure(segment, request, element, sub, opts));
              return Failed(f);
            }
        }
      }
      return Text(element);
    }

    /** The list branch: each position extracted in turn, without strict dates. */
    method ExtractList(segment: string, request: Request, ps: seq<Pos>, opts: DateOptions)
      returns (vs: seq<Value>)
      modifies this`extractionErrors
      ensures vs == ExtractAll(segment, Seps(), request, ps, opts, strptime)
      ensures extractionErrors == old(extractionErrors) + FailuresOf(vs)
    {
      vs := [];
      for k := 0 to |ps|
        invariant |vs| == k
        invariant forall i :: 0 <= i < k ==> vs[i] == LeafValue(segment, Seps(), request, ps[i], opts, false, strptime)
        invariant extractionErrors == old(extractionErrors) + FailuresOf(vs)
      {
        var v := ExtractOne(segment, request, ps[k], opts, false);
        FailuresOfSnoc(vs, v);
        vs := vs + [v];
      }
      ExtractAllAt(segment, Seps(), request, ps, opts, strptime);
    }

    /** The dict branch: each entry extracted in turn, strict when it says `"date": True`. */
    method ExtractLabelled(segment: string, request: Request, es: seq<(string, Entry)>, opts: DateOptions)
      returns (result: seq<(string, Value)>)
      modifies this`extractionErrors
      ensures result == ExtractNamed(segment, Seps(), request, es, opts, strptime)
      ensures extractionErrors == old(extractionErrors) + FailuresOfEntries(result)
    {
      result := [];
      for k := 0 to |es|
        invariant |result| == k
        invariant forall i :: 0 <= i < k ==>
                    result[i] == (es[i].0, LeafValue(segment, Seps(), request, es[i].1.pos, opts, Forced(es[i].1), strptime))
        invariant extractionErrors == old(extractionErrors) + FailuresOfEntries(result)
      {
        var key := es[k].0;
        var spec := es[k].1;
        var v := ExtractOne(segment, request, spec.pos, opts, Forced(spec));
        FailuresOfEntriesSnoc(result, (key, v));
        result := result + [(key, v)];
      }
      ExtractNamedAt(segment, Seps(), request, es, opts, strptime);
    }

    /**
     * universal_element_extract: the extraction of the request, with every
     * failure it produced appended to the log in occurrence order.
     */
    method UniversalElementExtract(segment: string, position: Request, opts: DateOptions)
      returns (r: ExtractResult)
      modifies this`extractionErrors
      ensures r == Extraction(segment, Seps(), position, opts, strptime)
      ensures extractionErrors == old(extractionErrors) + Logged(r)
    {
      match position {
        case Single(i) =>
          var v := ExtractOne(segment, position, Elem(i), opts, true);
          r := Ok(Scalar(v));
        case Pair(i, j) =>
          var v := ExtractOne(segment, position, SubElem(i, j), opts, false);
          r := Ok(Scalar(v));
        case List(ps) =>
          var vs := ExtractList(segment, position, ps, opts);
          r := Ok(Values(vs));
        case Named(es) =>
          var rs := ExtractLabelled(segment, position, es, opts);
          r := Ok(Labelled(rs));
        case Unsupported =>
          r := UnsupportedType;
      }
    }
  }
}
